// What the proxy's methods rely on, and the states they pass through.
module Serving {
  import opened BatchKeeps
  import opened Batching
  import opened Caches
  import opened Exchanges
  import opened Frequencies
  import opened GetProofs
  import opened Invariant
  import opened Keys
  import opened Protocol
  import opened PutProofs
  import opened Running
  import opened Runs
  import opened Seqs
  import opened Starting
  import opened Texts
  import opened Traffic
  import opened Values

  // How create_security_batch ends. Exit is the conflict in insert_cache that ends the process.
  datatype Outcome = Done | NoRecord | Exit

  datatype Request = GetRequest(item: Item, lo: int, hi: int) | PutRequest(key: Key, value: Bytes)

  function StepOf(q: Request): Step {
    match q
    case GetRequest(item, lo, hi) => GetStep(item, lo, hi)
    case PutRequest(key, value) => PutStep(key, value)
  }

  // What the consumer thread finds each time it looks at its queue: a request, or nothing.
  type Polls = seq<Option<Request>>

  // The requests among them, as steps.
  function StepsOf(polls: Polls): seq<Step> {
    if polls == [] then []
    else
      var front := StepsOf(polls[..|polls| - 1]);
      match polls[|polls| - 1]
      case None => front
      case Some(q) => front + [StepOf(q)]
  }

  lemma StepsOfNext(polls: Polls, i: nat)
    requires i < |polls|
    ensures StepsOf(polls[..i + 1]) == StepsOf(polls[..i]) + (if polls[i].Some? then [StepOf(polls[i].value)] else [])
  {
    assert polls[..i + 1][..i] == polls[..i];
  }

  // The requests themselves.
  function Found(polls: Polls): seq<Request> {
    if polls == [] then []
    else
      var front := Found(polls[..|polls| - 1]);
      match polls[|polls| - 1]
      case None => front
      case Some(q) => front + [q]
  }

  // Looks that find nothing leave no trace, and the others are found in their order.
  lemma {:induction false} FoundConcat(a: Polls, b: Polls)
    ensures Found(a + b) == Found(a) + Found(b)
  {
    if b == [] {
      assert a + b == a;
    } else {
      FoundConcat(a, b[..|b| - 1]);
      assert (a + b)[..|a + b| - 1] == a + b[..|b| - 1];
    }
  }

  lemma FoundOne(q: Request)
    ensures Found([Some(q)]) == [q] && Found([None]) == []
  {
    assert [Some(q)][..0] == [] && Found([]) == [];
    var none: Polls := [None];
    assert none[..0] == [];
  }

  // Each request found is served by one step, with what the request asks for.
  lemma {:induction false} StepsOfFound(polls: Polls, n: nat)
    requires n < |Found(polls)|
    ensures |StepsOf(polls)| == |Found(polls)|
    ensures match Found(polls)[n]
            case GetRequest(item, lo, hi) => StepsOf(polls)[n] == GetStep(item, lo, hi)
            case PutRequest(key, value) => StepsOf(polls)[n] == PutStep(key, value)
  {
    var front := polls[..|polls| - 1];
    SameLength(front);
    if n < |Found(front)| {
      StepsOfFound(front, n);
    }
  }

  lemma AllServed(polls: Polls, steps: seq<Step>)
    requires steps == StepsOf(polls)
    ensures |steps| == |Found(polls)|
    ensures forall n :: 0 <= n < |steps| ==>
              match Found(polls)[n]
              case GetRequest(item, lo, hi) => steps[n] == GetStep(item, lo, hi)
              case PutRequest(key, value) => steps[n] == PutStep(key, value)
  {
    hide Found, StepsOf;
    SameLength(polls);
    forall n: nat | n < |steps|
      ensures match Found(polls)[n]
              case GetRequest(item, lo, hi) => steps[n] == GetStep(item, lo, hi)
              case PutRequest(key, value) => steps[n] == PutStep(key, value)
    {
      StepsOfFound(polls, n);
    }
  }

  lemma {:induction false} SameLength(polls: Polls)
    ensures |StepsOf(polls)| == |Found(polls)|
  {
    if polls != [] {
      SameLength(polls[..|polls| - 1]);
    }
  }

  // Every request the round comes to is one the clients may make by then.
  ghost predicate Serveable(p: Params, s: State, polls: Polls)
    decreases |polls|
  {
    polls != [] && s.slots < p.R ==>
      match polls[0]
      case None => Serveable(p, s, polls[1..])
      case Some(q) => Enabled(p, s, StepOf(q)) && Serveable(p, Next(p, s, StepOf(q)), polls[1..])
  }

  lemma ServeNext(p: Params, s: State, polls: Polls)
    requires Serveable(p, s, polls) && polls != [] && s.slots < p.R
    ensures polls[0].None? ==> Serveable(p, s, polls[1..])
    ensures polls[0].Some? ==>
      Enabled(p, s, StepOf(polls[0].value)) && Serveable(p, Next(p, s, StepOf(polls[0].value)), polls[1..])
  {
  }

  // ---- sessions ----

  // A turn of the consumer thread: what it finds, how many batches the clear thread deletes in the middle of the turn's
  // batch, and how many after it. The clear thread stops where its queue is empty.
  datatype Turn = Turn(polls: Polls, pops: nat, clears: nat)

  // A run that serves the first polls, all of them unless R operations are counted before, then takes a batch, then only
  // clears.
  ghost predicate IsTurn(p: Params, polls: Polls, ss: seq<State>, steps: seq<Step>, seen: nat) {
    && Run(p, ss, steps) && seen <= |polls|
    && var n := |StepsOf(polls[..seen])|;
    && n < |steps| < |ss| && steps[..n] == StepsOf(polls[..seen]) && steps[n].BatchStep?
    && (seen == |polls| || ss[n].slots >= p.R)
    && forall i :: n < i < |steps| ==> steps[i].ClearStep?
  }

  // The n-th request that a turn finds is its n-th step, with the same item and bounds, or the same key and value. Then comes
  // the batch.
  lemma TurnServes(p: Params, polls: Polls, ss: seq<State>, steps: seq<Step>, seen: nat, n: nat)
    requires IsTurn(p, polls, ss, steps, seen) && n <= |Found(polls[..seen])|
    ensures |Found(polls[..seen])| < |steps|
    ensures n == |Found(polls[..seen])| ==> steps[n].BatchStep?
    ensures n < |Found(polls[..seen])| ==>
      match Found(polls[..seen])[n]
      case GetRequest(item, lo, hi) => steps[n] == GetStep(item, lo, hi)
      case PutRequest(key, value) => steps[n] == PutStep(key, value)
  {
    hide Run, StepsOf, Found;
    SameLength(polls[..seen]);
    if n < |Found(polls[..seen])| {
      StepsOfFound(polls[..seen], n);
      assert steps[n] == steps[..|Found(polls[..seen])|][n];
    }
  }

  // The piece of a run from its a-th to its b-th state is a turn.
  ghost predicate TurnBetween(p: Params, polls: Polls, ss: seq<State>, steps: seq<Step>, a: nat, b: nat, seen: nat) {
    a <= b <= |steps| < |ss| && IsTurn(p, polls, ss[a..b + 1], steps[a..b], seen)
  }

  // The pieces between the marks are the turns, in their order, and together they are the run.
  ghost predicate TurnsServed(p: Params, turns: seq<Turn>, ss: seq<State>, steps: seq<Step>, marks: seq<nat>, seens: seq<nat>) {
    && |ss| == |steps| + 1 && |marks| == |turns| + 1 && |seens| == |turns| && marks[0] == 0 && marks[|turns|] == |steps|
    && forall i :: 0 <= i < |turns| ==> TurnBetween(p, turns[i].polls, ss, steps, marks[i], marks[i + 1], seens[i])
  }

  lemma NoTurns(p: Params, s: State)
    ensures TurnsServed(p, [], [s], [], [0], [])
  {
  }

  lemma OneMoreTurn(p: Params, turns: seq<Turn>, ss: seq<State>, steps: seq<Step>, marks: seq<nat>, seens: seq<nat>,
                    turn: Turn, tt: seq<State>, more: seq<Step>, seen: nat)
    requires TurnsServed(p, turns, ss, steps, marks, seens) && IsTurn(p, turn.polls, tt, more, seen) && |tt| == |more| + 1
    requires ss[|steps|] == tt[0]
    ensures TurnsServed(p, turns + [turn], ss + tt[1..], steps + more, marks + [|steps + more|], seens + [seen])
  {
    hide TurnBetween;
    TurnAtEnd(p, turn.polls, ss, steps, tt, more, seen);
    forall i | 0 <= i < |turns|
      ensures TurnBetween(p, turns[i].polls, ss + tt[1..], steps + more, marks[i], marks[i + 1], seens[i])
    {
      TurnStays(p, turns[i].polls, ss, steps, marks[i], marks[i + 1], seens[i], tt[1..], more);
    }
  }

  lemma TurnStays(p: Params, polls: Polls, ss: seq<State>, steps: seq<Step>, a: nat, b: nat, seen: nat, tt: seq<State>, more: seq<Step>)
    requires TurnBetween(p, polls, ss, steps, a, b, seen) && |tt| == |more|
    ensures TurnBetween(p, polls, ss + tt, steps + more, a, b, seen)
  {
    hide IsTurn;
    assert (ss + tt)[a..b + 1] == ss[a..b + 1] && (steps + more)[a..b] == steps[a..b];
  }

  lemma TurnAtEnd(p: Params, polls: Polls, ss: seq<State>, steps: seq<Step>, tt: seq<State>, more: seq<Step>, seen: nat)
    requires IsTurn(p, polls, tt, more, seen) && |ss| == |steps| + 1 && |tt| == |more| + 1 && ss[|steps|] == tt[0]
    ensures TurnBetween(p, polls, ss + tt[1..], steps + more, |steps|, |steps + more|, seen)
  {
    hide IsTurn;
    var rr, all := ss + tt[1..], steps + more;
    assert rr[|steps|..|all| + 1] == tt && all[|steps|..|all|] == more;
  }

  ghost predicate EndsTurn(p: Params, s: State, polls: Polls, t: State) {
    exists ss, steps, seen :: IsTurn(p, polls, ss, steps, seen) && ss[0] == s && ss[|steps|] == t
  }

  // Whatever the proxy's random choices were, the clients only make requests they may make.
  ghost predicate Polite(p: Params, s: State, turns: seq<Turn>)
    decreases |turns|
  {
    turns != [] ==>
      && Serveable(p, s, turns[0].polls)
      && forall t :: EndsTurn(p, s, turns[0].polls, t) ==> Polite(p, t, turns[1..])
  }

  lemma PoliteNow(p: Params, s: State, turns: seq<Turn>)
    requires Polite(p, s, turns) && turns != []
    ensures Serveable(p, s, turns[0].polls)
  {
  }

  lemma PoliteNext(p: Params, turns: seq<Turn>, ss: seq<State>, steps: seq<Step>, seen: nat)
    requires turns != [] && IsTurn(p, turns[0].polls, ss, steps, seen) && Polite(p, ss[0], turns)
    ensures Polite(p, ss[|steps|], turns[1..])
  {
    hide IsTurn;
    TurnRuns(p, turns[0].polls, ss, steps, seen);
    assert EndsTurn(p, ss[0], turns[0].polls, ss[|steps|]);
  }

  // A turn, and one more turn of the clear thread.
  lemma TurnClears(p: Params, polls: Polls, ss: seq<State>, steps: seq<Step>, seen: nat)
    requires IsTurn(p, polls, ss, steps, seen) && ss[|steps|].queue != []
    ensures var t := Clear(ss[|steps|], 1); IsTurn(p, polls, ss + [t], steps + [ClearStep], seen) && (ss + [t])[|steps| + 1] == t
  {
    hide Clear, StepsOf;
    RunLength(p, ss, steps);
    ClearIsNext(p, ss[|steps|]);
    RunSnoc(p, ss, steps, ClearStep);
  }

  lemma TurnRuns(p: Params, polls: Polls, ss: seq<State>, steps: seq<Step>, seen: nat)
    requires IsTurn(p, polls, ss, steps, seen)
    ensures Run(p, ss, steps) && |ss| == |steps| + 1
  {
    hide StepsOf;
  }

  lemma TurnEnds(p: Params, polls: Polls, ss: seq<State>, steps: seq<Step>, seen: nat, ch: Choices, t: State)
    requires seen <= |polls| && steps == StepsOf(polls[..seen]) && Run(p, ss + [t], steps + [BatchStep(ch)])
    requires |ss| == |steps| + 1 && (seen == |polls| || ss[|steps|].slots >= p.R)
    ensures IsTurn(p, polls, ss + [t], steps + [BatchStep(ch)], seen)
  {
    hide StepsOf, RunAndStep;
  }

  lemma NoSteps(polls: Polls)
    ensures StepsOf(polls[..0]) == []
  {
  }

  lemma ClearIsNext(p: Params, s: State)
    requires s.queue != []
    ensures Enabled(p, s, ClearStep) && Next(p, s, ClearStep) == Clear(s, 1)
  {
  }

  lemma NextIs(p: Params, s: State, step: Step)
    requires Inv(p, s) && Enabled(p, s, step) && (step.GetStep? || step.PutStep?)
    ensures step.GetStep? ==> Next(p, s, step) == Get(s, step.item, step.lo, step.hi)
    ensures step.PutStep? ==> step.key.Bucket? && StampsOf(s.stamps, step.key.item) != {} && Next(p, s, step) == Put(s, step.key, step.value)
    ensures Next(p, s, step).queue == s.queue
  {
    hide Inv, SubGets, SplitOf, Touch, RemoveVictim, Oldest, AddStamp, Erase, StampsOf;
    match step
    case GetStep(item, lo, hi) =>
      TouchKeeps(p, s, item);
      GetFields(s, item, lo, hi);
    case PutStep(k, v) =>
      VictimShape(s.stamps, k.item);
      RemoveVictimSlots(s, Oldest(s.stamps, k.item));
  }

  lemma BatchEnds(p: Params, s: State, ch: Choices)
    requires Inv(p, s) && Sane(p) && BatchOk(p, s, ch)
    ensures Enabled(p, s, BatchStep(ch)) && Next(p, s, BatchStep(ch)) == Batch(p, s, ch) && Inv(p, Batch(p, s, ch))
  {
    hide Inv, Sane, BatchOk, Batch;
    BatchKeepsInv(p, s, ch);
  }

  lemma RealIndexed(bst: FrequencySmoother)
    requires bst.Valid() && bst.needTimeStamp
    ensures Indexed(bst.accessFreqs.Keys, bst.uniqueItemWithTimeStamp)
  {
  }

  lemma AllPlaced(keys: seq<Key>, values: seq<Bytes>, store: map<Tag, Cell>, hist: map<Key, Bytes>)
    requires Placed(keys, values, |keys|, store, hist)
    ensures forall i :: 0 <= i < |keys| ==> keys[i] in hist && hist[keys[i]] == values[i]
  {
  }

  // Before init.
  function Blank(): State {
    State(map[], map[], map[], [], map[], Tracker({}, map[], map[], map[], map[]), [], [], 0, 0, 0, map[], [], map[], {}, {}, map[])
  }

  // A value at hand that differs from the one already noted for a pending GET.
  ghost predicate Conflicts(s: State, k: Key) {
    && k in s.freqs && k in s.tracker.got
    && var local := Local(s.cache, s.evicted, k);
       local.Some? && local.value != s.tracker.got[k]
  }

  // A sub-operation of a GET on any key.
  function AfterGet(s: State, r: nat, k: Key, outcome: Outcome): State {
    match outcome
    case Done => SubGet(s, r, k).(slots := s.slots)
    case NoRecord => s.(tracker := Refused(s.tracker, r))
    case Exit => s
  }

  // A PUT finds its key new, or under a frequency that puts the old node where the new one belongs.
  ghost predicate LeavesNoNode(s: State, k: Key)
    requires k.Bucket? && StampsOf(s.stamps, k.item) != {}
  {
    VictimShape(s.stamps, k.item);
    var freqs := RemoveVictim(s, Oldest(s.stamps, k.item)).freqs;
    k !in freqs || freqs[k] == 0 || freqs[k] == s.clock
  }

  lemma TreeAfterPut(freqs: map<Key, int>, stamps: Stamps, k: Key, t: int)
    requires Indexed(freqs.Keys, stamps) && k.Bucket?
    ensures (Graph(freqs) + {Entry(k, 0)}) - {Entry(k, 0)} + {Entry(k, t)} == Graph(freqs[k := t])
       <==> k !in freqs || freqs[k] == 0 || freqs[k] == t
    ensures Indexed(freqs[k := t].Keys, AddStamp(stamps, k)) && freqs[k := 0][k := t] == freqs[k := t]
  {
    GraphSet(freqs, k, t);
    AddStampIndexed(freqs.Keys, stamps, k);
    assert freqs[k := t].Keys == freqs.Keys + {k};
    var tree := (Graph(freqs) + {Entry(k, 0)}) - {Entry(k, 0)} + {Entry(k, t)};
    if k in freqs && freqs[k] != 0 && freqs[k] != t {
      assert Entry(k, freqs[k]) in tree && Entry(k, freqs[k]) !in Graph(freqs[k := t]);
    }
    if k !in freqs {
      assert forall f :: Entry(k, f) !in Graph(freqs);
    }
  }

  lemma FreshLeavesNoNode(p: Params, s: State, k: Key, v: Bytes)
    requires Inv(p, s) && Enabled(p, s, PutStep(k, v))
    ensures k.Bucket? && v != [] && StampsOf(s.stamps, k.item) != {} && LeavesNoNode(s, k)
  {
    hide Inv, RemoveVictim, Oldest;
    PutMayRun(p, s, k, v);
    VictimShape(s.stamps, k.item);
    RemoveVictimSlots(s, Oldest(s.stamps, k.item));
  }

  lemma LocalLookup(cache: List, evicted: map<Key, Bytes>, k: Key, val: Bytes, isPresent: bool, valEvicted: Bytes)
    requires DistinctKeys(cache) && (isPresent <==> k in KeySet(cache))
    requires isPresent ==> k in ListMap(cache) && val == ListMap(cache)[k]
    requires valEvicted == if k in evicted then evicted[k] else []
    ensures Local(cache, evicted, k) == if isPresent then Some(val) else if valEvicted != [] then Some(valEvicted) else None
  {
    ListMapOf(cache);
  }

  lemma ExchangeHead(s: State, ch: Choices, i: nat, cache: List, freqs: map<Key, int>, stamps: Stamps, pending: seq<Key>)
    requires Exchanged(s, ch, i, cache, freqs, stamps, pending) && i < |Reads(s, ch)| && i < |Mid(s, ch, i)|
    ensures cache != [] && cache[0] == Mid(s, ch, i)[i] && cache[1..] == Mid(s, ch, i)[i + 1..]
    ensures pending == Without(s.pending, Elems(Reads(s, ch)[..i]))
    ensures forall k :: k in StampedReads(s, ch) && k !in Elems(s.pending) ==> k in freqs && freqs[k] == StampedReads(s, ch)[k]
  {
    hide Mid, StampedReads;
  }

  lemma OnePop(queue: seq<seq<Tag>>)
    requires queue != []
    ensures Flatten(queue[..1]) == queue[0]
  {
    assert queue[..1] == [queue[0]];
    assert Flatten([queue[0]]) == queue[0] + Flatten([]);
  }

  lemma NoPop(s: State)
    ensures Clear(s, 0) == s
  {
    assert s.queue[..0] == [];
    assert Elems<Tag>([]) == {};
  }

  lemma OnePopMore(s: State, i: nat)
    requires i < |s.queue|
    ensures Clear(Clear(s, i), 1) == Clear(s, i + 1)
  {
    hide Flatten;
    SplitPops(s.store, s.queue, i, i + 1);
  }

  // The state while a batch is under way, once the reads are back.
  function Reading(s: State, ch: Choices, pops: nat, running: set<Key>): State
    requires pops <= |s.queue| && NoneEmpty(s.tracker)
  {
    s.(tracker := TryClearAll(s.tracker).(running := running), freqs := StampedReads(s, ch), fakes := FakesAfter(s, ch),
       clock := s.clock + 1, store := Clear(s, pops).store, queue := s.queue[pops..], read := s.read + Elems(ReadTags(s, ch)))
  }

  // The state while a batch is under way, values exchanged and nothing written yet.
  function Exchanging(s: State, ch: Choices, pops: nat, evicted: map<Key, Bytes>, running: set<Key>): State
    requires |Reads(s, ch)| <= |Through(s, ch)| && pops <= |s.queue| && NoneEmpty(s.tracker)
  {
    s.(tracker := TryClearAll(s.tracker).(running := running), freqs := FreqsAfter(s, ch),
       stamps := DropStamps(s.stamps, Reads(s, ch), Elems(s.pending)), fakes := FakesAfter(s, ch),
       cache := Through(s, ch)[|Reads(s, ch)|..], evicted := evicted, pending := Without(s.pending, Elems(Reads(s, ch))),
       clock := s.clock + 1, store := Clear(s, pops).store, queue := s.queue[pops..], read := s.read + Elems(ReadTags(s, ch)))
  }

  // What a batch writes and answers, once the values are exchanged.
  ghost predicate Fit(p: Params, s: State, ch: Choices, vals: map<Key, Bytes>, cells: seq<Cell>) {
    Selected(p, s, ch) && Ripe(p, s, ch) && Satisfies(s, ch, vals) && CellsFit(p, s, ch, cells)
  }

  lemma WriteSize(p: Params, s: State, ch: Choices, vals: map<Key, Bytes>, cells: seq<Cell>)
    requires Inv(p, s) && Fit(p, s, ch, vals, cells)
    ensures |WriteTags(s, ch)| == |cells|
  {
    hide Inv, Ripe, WriteTags, Evictions, Wraps, WrapsNoise;
    FakeNames(p, s);
    WritesPart(p, s, ch);
  }

  lemma ReadingIs(s: State, ch: Choices, pops: nat, running: set<Key>)
    requires pops <= |s.queue| && NoneEmpty(s.tracker)
    ensures var t := Reading(s, ch, pops, running);
            t.freqs == StampedReads(s, ch) && t.fakes == FakesAfter(s, ch) && t.cache == s.cache && t.stamps == s.stamps
            && t.evicted == s.evicted && t.pending == s.pending && t.ops == s.ops
  {
    hide StampedReads, FakesAfter, ReadTags, TryClearAll, Clear;
  }

  lemma ExchangingIs(s: State, ch: Choices, pops: nat, evicted: map<Key, Bytes>, running: set<Key>)
    requires |Reads(s, ch)| <= |Through(s, ch)| && pops <= |s.queue| && NoneEmpty(s.tracker)
    ensures var t, u := Exchanging(s, ch, pops, evicted, running), Reading(s, ch, pops, running);
            t.tracker == TryClearAll(s.tracker).(running := running) && t.store == Clear(s, pops).store && t.evicted == evicted
            && t == u.(freqs := FreqsAfter(s, ch), stamps := DropStamps(s.stamps, Reads(s, ch), Elems(s.pending)),
                       cache := Through(s, ch)[|Reads(s, ch)|..], evicted := evicted, pending := Without(s.pending, Elems(Reads(s, ch))))
  {
    hide Reads, Through, FreqsAfter, FakesAfter, ReadTags, TryClearAll, Clear, Without, DropStamps;
  }

  ghost predicate IsBatch(p: Params, s: State, ch: Choices, t: State) {
    BatchOk(p, s, ch) && t == Batch(p, s, ch)
  }

  lemma BatchIs(p: Params, s: State, ch: Choices, vals: map<Key, Bytes>, cells: seq<Cell>, pops: nat, t: State)
    requires Fit(p, s, ch, vals, cells) && pops <= |s.queue| && |WriteTags(s, ch)| == |cells|
    requires Ready(s.tracker.requests.Keys, s.tracker.requests, s.tracker.got + Fetched(s, Reads(s, ch)))
    requires |Reads(s, ch)| <= |Through(s, ch)| && NoneEmpty(s.tracker)
    requires t == Exchanging(s, ch, pops, t.evicted, t.tracker.running)
    ensures IsBatch(p, s, ch.(cells := cells, pops := pops),
                    t.(store := PutAll(t.store, WriteTags(s, ch), cells), written := t.written + Elems(WriteTags(s, ch)), evicted := map[],
                       tracker := AnswerAll(s.tracker, Fetched(s, Reads(s, ch))), queue := t.queue + [ReadTags(s, ch)], ops := [], slots := 0))
  {
    hide BatchOk, Reads, Through, FreqsAfter, FakesAfter, WriteTags, ReadTags, Fetched, Ready, AnswerAll, Without, DropStamps, PutAll, Clear;
    hide Selected, CellsFit, Satisfies, TryClearAll;
    BatchIsOk(p, s, ch, cells, pops);
    ChoicesApart(s, ch, cells, pops);
  }

  lemma ClearView(t: State, s: State, pops: nat)
    requires t.store == s.store && t.queue == s.queue && pops <= |s.queue|
    ensures Clear(t, pops) == t.(store := Clear(s, pops).store, queue := s.queue[pops..])
  {
    hide Flatten;
  }

  lemma SubGetsNone(s: State, r: nat, keys: seq<Key>)
    ensures SubGets(s, r, keys, 0) == s
  {
  }

  lemma SubGetsMore(s: State, r: nat, keys: seq<Key>, j: nat)
    requires j < |keys|
    ensures SubGets(s, r, keys, j + 1) == SubGet(SubGets(s, r, keys, j), r, keys[j])
    ensures var t := SubGets(s, r, keys, j); SubGet(t, r, keys[j]).slots == t.slots + 1 && SubGet(t, r, keys[j]).nextId == t.nextId
  {
  }

  // The request counter takes no part in a split.
  lemma {:induction false} SubGetsNextId(s: State, r: nat, keys: seq<Key>, n: nat, id: nat)
    requires n <= |keys|
    ensures SubGets(s.(nextId := id), r, keys, n) == SubGets(s, r, keys, n).(nextId := id)
  {
    hide SubGetTracker, Requested, Local;
    if n != 0 {
      SubGetsNextId(s, r, keys, n - 1, id);
    }
  }

  // insert_cache never meets another value for a key, so the process does not end there.
  lemma NoConflicts(p: Params, s: State, k: Key)
    requires Inv(p, s) && k in s.freqs
    ensures !Conflicts(s, k)
  {
    hide InvVersions, InvRecency, InvStored, InvStore, InvWritten, InvFakes, InvRound, InvCache, InvTracker;
    hide InvPending, InvAsked, InvCounts, InvWindow, InvBase, InvFakeAges, InvNoise, Resident, Live, KeySet, ListMap;
    LocalIs(s.freqs, s.stamps, s.cache, s.hist, k);
    if k in s.tracker.got {
      GotIs(s.tracker, Resident(s.freqs, s.cache), s.hist, k);
    }
  }

  lemma GotIs(t: Tracker, resident: set<Key>, hist: map<Key, Bytes>, k: Key)
    requires InvTracker(t, resident, hist) && k in t.got
    ensures k !in resident && k in hist && t.got[k] == hist[k]
  {
  }

  lemma GetSoFar(p: Params, s: State, item: Item, lo: int, hi: int, j: nat)
    requires Inv(p, s) && Enabled(p, s, GetStep(item, lo, hi)) && j <= |SplitOf(s, item, lo, hi)|
    ensures var keys := SplitOf(s, item, lo, hi);
            var t := SubGets(s.(stamps := Touch(s.stamps, item)), s.nextId, keys, j);
            && (j < |keys| ==> keys[j] in t.freqs && !Conflicts(t, keys[j]))
            && (j == |keys| ==> t.(nextId := s.nextId + 1) == Get(s, item, lo, hi) && t.nextId == s.nextId)
  {
    hide Inv, Conflicts, SplitOf, Touch, SubGets;
    var keys := SplitOf(s, item, lo, hi);
    var touched := s.(stamps := Touch(s.stamps, item));
    LiveIndex(p, s);
    SplitIsLive(s, item, lo, hi);
    TouchKeeps(p, s, item);
    SubGetsKeep(p, touched.(nextId := s.nextId + 1), s.nextId, keys, j);
    SubGetsNextId(touched, s.nextId, keys, j, s.nextId + 1);
    SubGetsFields(touched, s.nextId, keys, j);
    if j < |keys| {
      var t := SubGets(touched, s.nextId, keys, j);
      NoConflicts(p, t.(nextId := s.nextId + 1), keys[j]);
      SameConflicts(t, s.nextId + 1, keys[j]);
    }
  }

  lemma SameConflicts(s: State, id: nat, k: Key)
    ensures Conflicts(s.(nextId := id), k) <==> Conflicts(s, k)
  {
  }

  lemma PutMayRun(p: Params, s: State, k: Key, v: Bytes)
    requires Inv(p, s) && PutOk(s, k, v)
    ensures k !in s.freqs
  {
    hide InvCache, InvVersions, InvRecency, InvStored, InvStore, InvWritten, InvFakes, InvRound;
    hide InvPending, InvTracker, InvAsked, InvCounts, InvWindow, InvBase, InvFakeAges, InvNoise, Live, Resident;
  }

  lemma PutSlots(s: State, k: Key, v: Bytes)
    requires k.Bucket? && StampsOf(s.stamps, k.item) != {}
    ensures Put(s, k, v).slots == s.slots + 1
  {
    hide RemoveVictim, AddStamp, Erase, Oldest;
    VictimShape(s.stamps, k.item);
    RemoveVictimSlots(s, Oldest(s.stamps, k.item));
  }

  lemma PlaceLookup(cache: List, evicted: map<Key, Bytes>, k: Key, isPresent: bool, valEvicted: Bytes)
    requires DistinctKeys(cache) && (isPresent <==> k in KeySet(cache)) && valEvicted == if k in evicted then evicted[k] else []
    ensures PlaceOf(cache, evicted, k) == if valEvicted != [] then InEvicted else if isPresent then InCache else InStore
  {
    ListMapOf(cache);
  }

  lemma OldestIs(stamps: Stamps, item: Item, k: Key)
    requires k.Bucket? && k.item == item && k.ts in StampsOf(stamps, item)
    requires forall t :: t in StampsOf(stamps, item) ==> k.ts <= t
    ensures k == Oldest(stamps, item)
  {
  }

  lemma RemoveVictimSlots(s: State, victim: Key)
    requires victim.Bucket?
    ensures var t := RemoveVictim(s, victim);
            t.slots == s.slots && t.hist == s.hist && t.clock == s.clock && t.queue == s.queue && t.freqs.Keys <= s.freqs.Keys
  {
    hide DropStamp, Erase, PlaceOf, Requested;
  }
}
