// The promises of a round come out the same whatever order the fetched records are cleared in.
module Clearing {
  import opened Invariant
  import opened Keys
  import opened Protocol
  import opened PutProofs
  import opened Running
  import opened Values

  // What holds of the tracker when a round ends.
  ghost predicate Shape(t: Tracker) {
    && t.got.Keys !! t.waiting.Keys
    && (forall r :: r in t.requests ==> t.requests[r] != [])
    && (forall k, r :: k in t.waiting && r in t.waiting[k] ==> r in t.requests && k in t.requests[r])
    && (forall r, k :: r in t.requests && k in t.requests[r] ==> k in t.got || (k in t.waiting && r in t.waiting[k]))
  }

  lemma ShapeHolds(t: Tracker, resident: set<Key>, hist: map<Key, Bytes>, asked: map<nat, seq<Key>>, nextId: nat)
    requires InvTracker(t, resident, hist) && InvAsked(t, asked, nextId, hist) && t.waiting.Keys <= resident
    ensures Shape(t)
  {
  }

  // The values known once the records of done are cleared.
  function GotBy(t: Tracker, vals: map<Key, Bytes>, done: set<Key>): map<Key, Bytes> {
    t.got + map k | k in vals && k in done && k in t.waiting :: vals[k]
  }

  // The requests answered by then.
  function AnsweredBy(t: Tracker, vals: map<Key, Bytes>, done: set<Key>): (a: set<nat>)
    ensures a <= t.requests.Keys
  {
    FulfilledOf(t.requests.Keys, t.requests, GotBy(t, vals, done))
  }

  lemma ReadyBy(t: Tracker, vals: map<Key, Bytes>, done: set<Key>)
    requires Shape(t)
    ensures Ready(AnsweredBy(t, vals, done), t.requests, GotBy(t, vals, vals.Keys))
  {
  }

  // u is t after the end of the round and the clearing of the records of done, in some order.
  ghost predicate Cleared(t: Tracker, vals: map<Key, Bytes>, done: set<Key>, u: Tracker)
    requires Ready(AnsweredBy(t, vals, done), t.requests, GotBy(t, vals, vals.Keys))
  {
    var a := AnsweredBy(t, vals, done);
    && u.requests == t.requests - a
    && u.answers == Record(t.answers, a, t.requests, GotBy(t, vals, vals.Keys))
    && (if u.requests == map[] then u.waiting == map[] && u.got == map[]
        else u.waiting == t.waiting && u.got == GotBy(t, vals, done))
  }

  // Recording two batches of answers one after the other.
  lemma RecordTwice(answers: map<nat, seq<Answer>>, a: set<nat>, b: set<nat>, requests: map<nat, seq<Key>>, left: map<nat, seq<Key>>,
                    all: map<Key, Bytes>, now: map<Key, Bytes>)
    requires a !! b && Ready(a + b, requests, all) && Ready(b, left, now) && Ready(a, requests, all)
    requires forall r :: r in b ==> left[r] == requests[r]
    requires forall k :: k in now ==> k in all && all[k] == now[k]
    ensures Record(Record(answers, a, requests, all), b, left, now) == Record(answers, a + b, requests, all)
  {
    forall r | r in b ensures AnswerOf(left[r], now) == AnswerOf(requests[r], all) {
      AnswerFrame(requests[r], now, all);
    }
  }

  // tryClearAllPromises at the end of the round.
  lemma EndOfRound(t: Tracker, vals: map<Key, Bytes>)
    requires Shape(t)
    ensures Ready(AnsweredBy(t, vals, {}), t.requests, GotBy(t, vals, vals.Keys))
    ensures Cleared(t, vals, {}, TryClearAll(t)) && TryClearAll(t).running == t.running
  {
    hide Ready, Shape, Fulfilled;
    ReadyBy(t, vals, {});
    assert GotBy(t, vals, {}) == t.got;
    RecordNow(t, vals);
  }

  lemma RecordNow(t: Tracker, vals: map<Key, Bytes>)
    requires Shape(t) && Ready(AnsweredBy(t, vals, {}), t.requests, GotBy(t, vals, vals.Keys))
    ensures Ready(AnsweredBy(t, vals, {}), t.requests, t.got)
    ensures Record(t.answers, AnsweredBy(t, vals, {}), t.requests, t.got)
         == Record(t.answers, AnsweredBy(t, vals, {}), t.requests, GotBy(t, vals, vals.Keys))
  {
    assert GotBy(t, vals, {}) == t.got;
    forall r | r in AnsweredBy(t, vals, {})
      ensures AnswerOf(t.requests[r], t.got) == AnswerOf(t.requests[r], GotBy(t, vals, vals.Keys))
    {
      AnswerFrame(t.requests[r], t.got, GotBy(t, vals, vals.Keys));
    }
  }

  // No request id that was already erased is looked up.
  lemma NothingErased(t: Tracker, vals: map<Key, Bytes>, done: set<Key>, u: Tracker, k: Key)
    requires Shape(t) && k !in done && Ready(AnsweredBy(t, vals, done), t.requests, GotBy(t, vals, vals.Keys))
    requires Cleared(t, vals, done, u)
    ensures Clearable(u, k) && (k in u.waiting ==> u.waiting[k] <= u.requests.Keys)
  {
    if k in u.waiting {
      forall r | r in u.waiting[k] ensures r in u.requests {
        assert k in t.requests[r] && k !in GotBy(t, vals, done);
      }
    }
  }

  lemma AnsweredMore(t: Tracker, vals: map<Key, Bytes>, done: set<Key>, u: Tracker, k: Key)
    requires Shape(t) && k !in done && k in vals && k in t.waiting
    requires u.requests == t.requests - AnsweredBy(t, vals, done) && t.waiting[k] <= u.requests.Keys
    ensures GotBy(t, vals, done + {k}) == GotBy(t, vals, done)[k := vals[k]]
    ensures var b := FulfilledOf(t.waiting[k], u.requests, GotBy(t, vals, done + {k}));
            AnsweredBy(t, vals, done + {k}) == AnsweredBy(t, vals, done) + b && AnsweredBy(t, vals, done) !! b
  {
    assert GotBy(t, vals, done + {k}) == GotBy(t, vals, done)[k := vals[k]];
    var b := FulfilledOf(t.waiting[k], u.requests, GotBy(t, vals, done + {k}));
    forall r | r in AnsweredBy(t, vals, done + {k}) ensures r in AnsweredBy(t, vals, done) + b {
      if k in t.requests[r] {
        assert r in t.waiting[k];
      }
    }
  }

  lemma ClearOne(t: Tracker, vals: map<Key, Bytes>, done: set<Key>, u: Tracker, k: Key)
    requires Shape(t) && k !in done && k in vals && Ready(AnsweredBy(t, vals, done), t.requests, GotBy(t, vals, vals.Keys))
    requires Cleared(t, vals, done, u)
    ensures Clearable(u, k)
    ensures Ready(AnsweredBy(t, vals, done + {k}), t.requests, GotBy(t, vals, vals.Keys))
    ensures Cleared(t, vals, done + {k}, TryClear(u, k, vals[k])) && TryClear(u, k, vals[k]).running == u.running - {k}
  {
    hide FulfilledOf, Record, Ready, GotBy, AnsweredBy, Clearable, TryClear, Shape;
    NothingErased(t, vals, done, u, k);
    ReadyBy(t, vals, done + {k});
    TryClearRunning(u, k, vals[k]);
    if k !in t.waiting {
      NotAwaited(t, vals, done, k);
      ClearUnwaited(t, vals, done, u, k);
    } else if u.requests == map[] {
      NothingLeft(t, vals, done, k);
      ClearUnwaited(t, vals, done, u, k);
    } else {
      AnsweredMore(t, vals, done, u, k);
      ClearWaited(t, vals, done, u, k);
    }
  }

  lemma NotAwaited(t: Tracker, vals: map<Key, Bytes>, done: set<Key>, k: Key)
    requires k !in t.waiting
    ensures GotBy(t, vals, done + {k}) == GotBy(t, vals, done) && AnsweredBy(t, vals, done + {k}) == AnsweredBy(t, vals, done)
  {
    assert GotBy(t, vals, done + {k}) == GotBy(t, vals, done);
  }

  lemma TryClearRunning(u: Tracker, k: Key, v: Bytes)
    requires Clearable(u, k)
    ensures TryClear(u, k, v).running == u.running - {k}
  {
    hide FulfilledOf, Record;
  }

  lemma ClearUnwaited(t: Tracker, vals: map<Key, Bytes>, done: set<Key>, u: Tracker, k: Key)
    requires k in vals && Clearable(u, k) && (k !in t.waiting || u.requests == map[])
    requires Ready(AnsweredBy(t, vals, done), t.requests, GotBy(t, vals, vals.Keys)) && Cleared(t, vals, done, u)
    requires Ready(AnsweredBy(t, vals, done + {k}), t.requests, GotBy(t, vals, vals.Keys))
    requires AnsweredBy(t, vals, done + {k}) == AnsweredBy(t, vals, done)
    requires u.requests == map[] || GotBy(t, vals, done + {k}) == GotBy(t, vals, done)
    ensures Cleared(t, vals, done + {k}, TryClear(u, k, vals[k]))
  {
    assert k !in u.waiting;
    hide FulfilledOf, Record, Ready, GotBy, AnsweredBy;
  }

  lemma NothingLeft(t: Tracker, vals: map<Key, Bytes>, done: set<Key>, k: Key)
    requires t.requests - AnsweredBy(t, vals, done) == map[] && k in vals && k !in done
    ensures AnsweredBy(t, vals, done + {k}) == AnsweredBy(t, vals, done)
  {
    forall r | r in t.requests ensures r in AnsweredBy(t, vals, done) {
      assert r !in t.requests - AnsweredBy(t, vals, done);
    }
    assert forall q :: q in GotBy(t, vals, done) ==> q in GotBy(t, vals, done + {k});
  }

  lemma ClearWaited(t: Tracker, vals: map<Key, Bytes>, done: set<Key>, u: Tracker, k: Key)
    requires Shape(t) && k !in done && k in vals && k in t.waiting && u.requests != map[]
    requires Ready(AnsweredBy(t, vals, done), t.requests, GotBy(t, vals, vals.Keys)) && Cleared(t, vals, done, u) && Clearable(u, k)
    requires Ready(AnsweredBy(t, vals, done + {k}), t.requests, GotBy(t, vals, vals.Keys))
    requires GotBy(t, vals, done + {k}) == GotBy(t, vals, done)[k := vals[k]]
    requires var b := FulfilledOf(t.waiting[k], u.requests, GotBy(t, vals, done + {k}));
             AnsweredBy(t, vals, done + {k}) == AnsweredBy(t, vals, done) + b && AnsweredBy(t, vals, done) !! b
    ensures Cleared(t, vals, done + {k}, TryClear(u, k, vals[k]))
  {
    hide GotBy, AnsweredBy, Ready, Shape;
    var a := AnsweredBy(t, vals, done);
    var now := GotBy(t, vals, done + {k});
    var all := GotBy(t, vals, vals.Keys);
    var b := FulfilledOf(t.waiting[k], u.requests, now);
    NowInAll(t, vals, done + {k});
    ReadyNow(u, k, now);
    RecordTwice(t.answers, a, b, t.requests, u.requests, all, now);
    hide FulfilledOf, Record, Clearable;
    assert (t.requests - a) - b == t.requests - (a + b);
    var w := TryClear(u, k, vals[k]);
    assert w.requests == t.requests - (a + b);
    assert w.answers == Record(t.answers, a + b, t.requests, all);
    assert b == {} ==> w.requests == u.requests;
  }

  lemma NowInAll(t: Tracker, vals: map<Key, Bytes>, done: set<Key>)
    requires Shape(t)
    ensures forall q :: q in GotBy(t, vals, done) ==>
              q in GotBy(t, vals, vals.Keys) && GotBy(t, vals, vals.Keys)[q] == GotBy(t, vals, done)[q]
  {
  }

  lemma ReadyNow(u: Tracker, k: Key, now: map<Key, Bytes>)
    requires Clearable(u, k) && k in u.waiting
    ensures Ready(FulfilledOf(u.waiting[k], u.requests, now), u.requests, now)
  {
  }

  // Once every awaited record is cleared nothing is left, and every request has had its answer.
  lemma AllCleared(t: Tracker, vals: map<Key, Bytes>, fetched: map<Key, Bytes>, done: set<Key>, u: Tracker)
    requires Shape(t) && t.waiting.Keys <= done && t.waiting.Keys <= vals.Keys && u.running == {}
    requires Ready(AnsweredBy(t, vals, done), t.requests, GotBy(t, vals, vals.Keys)) && Cleared(t, vals, done, u)
    requires Ready(t.requests.Keys, t.requests, t.got + fetched)
    requires t.got.Keys !! fetched.Keys && forall k :: k in t.waiting ==> k in fetched && fetched[k] == vals[k]
    ensures u == AnswerAll(t, fetched)
  {
    hide GotBy, AnsweredBy, Shape, Record, Ready;
    EverythingAnswered(t, vals, done);
    SameRecord(t, vals, fetched);
    assert u.requests == map[];
  }

  lemma SameRecord(t: Tracker, vals: map<Key, Bytes>, fetched: map<Key, Bytes>)
    requires Shape(t) && t.waiting.Keys <= vals.Keys
    requires Ready(t.requests.Keys, t.requests, t.got + fetched)
    requires t.got.Keys !! fetched.Keys && forall k :: k in t.waiting ==> k in fetched && fetched[k] == vals[k]
    ensures Ready(t.requests.Keys, t.requests, GotBy(t, vals, vals.Keys))
    ensures Record(t.answers, t.requests.Keys, t.requests, GotBy(t, vals, vals.Keys))
         == Record(t.answers, t.requests.Keys, t.requests, t.got + fetched)
  {
    hide GotBy, Shape, Fulfilled;
    forall r | r in t.requests
      ensures Fulfilled(t.requests[r], GotBy(t, vals, vals.Keys))
      ensures AnswerOf(t.requests[r], GotBy(t, vals, vals.Keys)) == AnswerOf(t.requests[r], t.got + fetched)
    {
      SameAnswers(t, vals, fetched, r);
    }
  }

  lemma EverythingAnswered(t: Tracker, vals: map<Key, Bytes>, done: set<Key>)
    requires Shape(t) && t.waiting.Keys <= done && t.waiting.Keys <= vals.Keys
    ensures AnsweredBy(t, vals, done) == t.requests.Keys
  {
    forall r | r in t.requests ensures r in AnsweredBy(t, vals, done) {
      assert Fulfilled(t.requests[r], GotBy(t, vals, done));
    }
  }

  lemma SameAnswers(t: Tracker, vals: map<Key, Bytes>, fetched: map<Key, Bytes>, r: nat)
    requires Shape(t) && t.waiting.Keys <= vals.Keys && r in t.requests && Fulfilled(t.requests[r], t.got + fetched)
    requires t.got.Keys !! fetched.Keys && forall k :: k in t.waiting ==> k in fetched && fetched[k] == vals[k]
    ensures var all := GotBy(t, vals, vals.Keys);
            Fulfilled(t.requests[r], all) && AnswerOf(t.requests[r], all) == AnswerOf(t.requests[r], t.got + fetched)
  {
    var all := GotBy(t, vals, vals.Keys);
    assert Fulfilled(t.requests[r], all);
    AnswerFrame(t.requests[r], all, t.got + fetched);
  }
}
