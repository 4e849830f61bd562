// The proxy's rounds and batches as steps between states.
module Protocol {
  import opened Caches
  import opened Frequencies
  import opened Keys
  import opened Running
  import opened Seqs
  import opened Splits
  import opened Texts
  import opened Values

  // B: batch size. R: operations per round. F: fake reads per batch. M: longest split of a range GET.
  // At the start there are N records, C of them cached, D fake records, and base gives the buckets per item.
  datatype Params = Params(B: nat, R: nat, F: nat, M: nat, N: nat, C: nat, D: nat, base: map<Item, nat>, objectSize: nat)

  // What the configuration has to satisfy.
  predicate Sane(p: Params) {
    && p.C >= 1 && p.D >= p.F >= 1 && p.M >= 1 && p.R >= 1
    && p.N >= p.C + p.B - p.F && p.B < 0x8000_0000
    && p.R - 1 + p.M + p.F <= p.B
  }

  // freqs, stamps: realBst. fakes: fakeBst. tracker: runningKeys. pending: keys_to_be_deleted. ops: storage_batch.
  // slots: operations counted in the round. queue: keysNotUsed. The last four fields are history: the value every
  // record was inserted with, the tags ever written and read, and the split of every GET.
  datatype State = State(
    freqs: map<Key, int>, stamps: Stamps, fakes: map<Key, int>, cache: List, evicted: map<Key, Bytes>,
    tracker: Tracker, pending: seq<Key>, ops: seq<Key>, slots: nat, nextId: nat, clock: int,
    store: map<Tag, Cell>, queue: seq<seq<Tag>>,
    hist: map<Key, Bytes>, written: set<Tag>, read: set<Tag>, asked: map<nat, seq<Key>>)

  // operator[] on a frequency map.
  function FreqOf(m: map<Key, int>, k: Key): int {
    if k in m then m[k] else 0
  }

  // The records whose value is in the store.
  function Resident(freqs: map<Key, int>, cache: List): set<Key> {
    freqs.Keys - KeySet(cache)
  }

  function TagOf(m: map<Key, int>, k: Key): Tag {
    Tag(k, FreqOf(m, k))
  }

  function TagsOf(m: map<Key, int>, keys: seq<Key>): (tags: seq<Tag>)
    ensures |tags| == |keys| && forall i :: 0 <= i < |keys| ==> tags[i] == TagOf(m, keys[i])
  {
    seq(|keys|, i requires 0 <= i < |keys| => TagOf(m, keys[i]))
  }

  // The tags of a set of keys.
  function Tagged(m: map<Key, int>, keys: set<Key>): set<Tag> {
    set k | k in keys :: TagOf(m, k)
  }

  // The tags that hold a current value.
  function Live(freqs: map<Key, int>, cache: List, fakes: map<Key, int>): set<Tag> {
    Tagged(freqs, Resident(freqs, cache)) + Tagged(fakes, fakes.Keys)
  }

  // The tags waiting for deletion.
  function Queued(queue: seq<seq<Tag>>): set<Tag> {
    Elems(Flatten(queue))
  }

  function StoredValue(s: State, k: Key): Bytes {
    var tag := TagOf(s.freqs, k);
    if tag in s.store then DecryptNonDeterministic(s.store[tag]) else []
  }

  // The key-value map the clients see.
  function Logical(s: State): map<Key, Bytes> {
    map k | k in s.freqs :: if k in ListMap(s.cache) then ListMap(s.cache)[k] else StoredValue(s, k)
  }

  // ---- one sub-operation of a range GET ----

  function Asked(s: State, r: nat): seq<Key> {
    if r in s.asked then s.asked[r] else []
  }

  // A value the proxy holds itself.
  function Local(cache: List, evicted: map<Key, Bytes>, k: Key): Option<Bytes> {
    if k in ListMap(cache) then Some(ListMap(cache)[k])
    else if k in evicted && evicted[k] != [] then Some(evicted[k])
    else None
  }

  function SubGetTracker(t: Tracker, local: Option<Bytes>, r: nat, k: Key): Tracker {
    match local
    case Some(v) => Hit(t, r, k, v)
    case None => WaitFor(t, k, r)
  }

  // storage_batch after a key was asked for.
  function Requested(ops: seq<Key>, t: Tracker, local: bool, k: Key): seq<Key> {
    if local || Busy(t, k) then ops else ops + [k]
  }

  function SubGet(s: State, r: nat, k: Key): State {
    var local := Local(s.cache, s.evicted, k);
    s.(tracker := SubGetTracker(s.tracker, local, r, k), ops := Requested(s.ops, s.tracker, local.Some?, k),
       slots := s.slots + 1, asked := s.asked[r := Asked(s, r) + [k]])
  }

  // The first n sub-operations.
  function SubGets(s: State, r: nat, keys: seq<Key>, n: nat): State
    requires n <= |keys|
  {
    if n == 0 then s else SubGet(SubGets(s, r, keys, n - 1), r, keys[n - 1])
  }

  ghost function SplitOf(s: State, item: Item, lo: int, hi: int): seq<Key> {
    SplitKeys(item, StampsOf(s.stamps, item), lo, hi)
  }

  ghost function Get(s: State, item: Item, lo: int, hi: int): State {
    var touched := s.(stamps := Touch(s.stamps, item), nextId := s.nextId + 1);
    var keys := SplitOf(s, item, lo, hi);
    SubGets(touched, s.nextId, keys, |keys|)
  }

  // ---- a PUT ----

  ghost function Oldest(stamps: Stamps, item: Item): Key
    requires StampsOf(stamps, item) != {}
  {
    Bucket(item, Least(StampsOf(stamps, item)))
  }

  // Where remove_oldest_data finds its victim.
  datatype Place = InStore | InCache | InEvicted

  function PlaceOf(cache: List, evicted: map<Key, Bytes>, k: Key): Place {
    if k in evicted && evicted[k] != [] then InEvicted else if k in ListMap(cache) then InCache else InStore
  }

  // remove_oldest_data on the victim it picked: what is at hand is dropped, the rest is registered to be dropped.
  function RemoveVictim(s: State, victim: Key): State
    requires victim.Bucket?
  {
    var place := PlaceOf(s.cache, s.evicted, victim);
    s.(freqs := if place.InStore? then s.freqs else s.freqs - {victim},
       stamps := if place.InStore? then s.stamps else DropStamp(s.stamps, victim),
       cache := if place.InCache? then Erase(s.cache, victim) else s.cache,
       evicted := if place.InEvicted? then s.evicted - {victim} else s.evicted,
       tracker := if place.InStore? then s.tracker.(running := s.tracker.running + {victim}) else s.tracker,
       ops := Requested(s.ops, s.tracker, !place.InStore?, victim),
       pending := if place.InStore? then s.pending + [victim] else s.pending)
  }

  function Insert(s: State, k: Key, v: Bytes): State
    requires k.Bucket?
  {
    s.(cache := Erase(s.cache, k) + [Pair(k, v)], freqs := s.freqs[k := s.clock], stamps := AddStamp(s.stamps, k),
       hist := s.hist[k := v], slots := s.slots + 1)
  }

  ghost function Put(s: State, k: Key, v: Bytes): State
    requires k.Bucket? && StampsOf(s.stamps, k.item) != {}
  {
    Insert(RemoveVictim(s, Oldest(s.stamps, k.item)), k, v)
  }

  // What the clients owe: a value with no NUL byte, not empty (an empty value means GET), for a known item, with a
  // timestamp above every earlier one of the item.
  ghost predicate PutOk(s: State, k: Key, v: Bytes) {
    && k.Bucket? && v != [] && NulFree(v) && StampsOf(s.stamps, k.item) != {}
    && forall q :: q in s.hist && q.Bucket? && q.item == k.item ==> q.ts < k.ts
  }

  // ---- the background deletion ----

  // The clear thread pops n batches and deletes their tags.
  function Clear(s: State, n: nat): State
    requires n <= |s.queue|
  {
    s.(store := s.store - Elems(Flatten(s.queue[..n])), queue := s.queue[n..])
  }

  // ---- the end of a round: tryClearAllPromises and execute_batch ----

  // What the batch leaves open: the padding keys, the ciphertexts written, the deletion batches popped meanwhile.
  datatype Choices = Choices(chosen: seq<Key>, fakeKeys: seq<Key>, cells: seq<Cell>, pops: nat)

  // picked is the start of pool in (frequency, key) order.
  predicate IsScan(m: map<Key, int>, pool: set<Key>, picked: seq<Key>) {
    && pool <= m.Keys && Distinct(picked) && Elems(picked) <= pool
    && (forall i, j :: 0 <= i < j < |picked| ==> FreqCmp(Entry(picked[i], FreqOf(m, picked[i])), Entry(picked[j], FreqOf(m, picked[j]))))
    && (forall k, o :: k in Elems(picked) && o in pool - Elems(picked) ==>
          FreqCmp(Entry(k, FreqOf(m, k)), Entry(o, FreqOf(m, o))))
  }

  // Store-resident records the round does not read anyway.
  function Eligible(s: State): set<Key> {
    Resident(s.freqs, s.cache) - Elems(s.ops)
  }

  function Reads(s: State, ch: Choices): seq<Key> {
    s.ops + ch.chosen
  }

  function ReadTags(s: State, ch: Choices): seq<Tag> {
    TagsOf(s.freqs, Reads(s, ch)) + TagsOf(s.fakes, ch.fakeKeys)
  }

  // Frequencies after the keys are stamped with the new batch number.
  function Stamped(m: map<Key, int>, keys: set<Key>, t: int): map<Key, int> {
    m + map k | k in keys :: t
  }

  // promiseSatisfy restricted to real records.
  function Fetched(s: State, keys: seq<Key>): map<Key, Bytes> {
    map k | k in Elems(keys) :: StoredValue(s, k)
  }

  // The pairs that enter the cache: what was read, less what is registered for deletion.
  function Kept(keys: seq<Key>, vals: map<Key, Bytes>, drop: set<Key>): List {
    if keys == [] then []
    else
      var k := keys[|keys| - 1];
      var front := Kept(keys[..|keys| - 1], vals, drop);
      if k in drop || k !in vals then front else front + [Pair(k, vals[k])]
  }

  // The cache as one queue: what it held, then what enters. Evictions take its front.
  function Through(s: State, ch: Choices): List {
    s.cache + Kept(Reads(s, ch), Fetched(s, Reads(s, ch)), Elems(s.pending))
  }

  function Evictions(s: State, ch: Choices): List {
    var n := |Reads(s, ch)|;
    if n <= |Through(s, ch)| then Through(s, ch)[..n] else Through(s, ch)
  }

  function KeysIn(q: List): (keys: seq<Key>)
    ensures |keys| == |q| && forall i :: 0 <= i < |q| ==> keys[i] == q[i].key
  {
    seq(|q|, i requires 0 <= i < |q| => q[i].key)
  }

  // The frequencies of the real records after a batch.
  function FreqsAfter(s: State, ch: Choices): map<Key, int> {
    Stamped(s.freqs, Elems(Reads(s, ch)), s.clock + 1) - Elems(s.pending)
  }

  function FakesAfter(s: State, ch: Choices): map<Key, int> {
    Stamped(s.fakes, Elems(ch.fakeKeys), s.clock + 1)
  }

  function WriteTags(s: State, ch: Choices): seq<Tag> {
    TagsOf(Stamped(s.freqs, Elems(Reads(s, ch)), s.clock + 1), KeysIn(Evictions(s, ch)))
    + TagsOf(FakesAfter(s, ch), ch.fakeKeys)
  }

  // mset.
  function PutAll(store: map<Tag, Cell>, tags: seq<Tag>, cells: seq<Cell>): map<Tag, Cell>
    requires |tags| == |cells|
  {
    if tags == [] then store
    else
      var n := |tags| - 1;
      PutAll(store, tags[..n], cells[..n])[tags[n] := cells[n]]
  }

  function DropStamps(stamps: Stamps, keys: seq<Key>, drop: set<Key>): Stamps {
    if keys == [] then stamps
    else
      var k := keys[|keys| - 1];
      var front := DropStamps(stamps, keys[..|keys| - 1], drop);
      if k in drop && k.Bucket? then DropStamp(front, k) else front
  }

  // keys_to_be_deleted once the keys of gone are erased from it.
  function Without(pending: seq<Key>, gone: set<Key>): seq<Key> {
    if pending == [] then []
    else
      var k := pending[|pending| - 1];
      var front := Without(pending[..|pending| - 1], gone);
      if k in gone then front else front + [k]
  }

  // A ciphertext of size random characters.
  predicate WrapsNoise(c: Cell, size: nat) {
    size <= |c.text| && Wraps(c, c.text[..size]) && Alphanumeric(c.text[..size])
  }

  // Every GET of the round is answered with what the tracker had or the batch fetched.
  function AnswerAll(t: Tracker, fetched: map<Key, Bytes>): Tracker
    requires Ready(t.requests.Keys, t.requests, t.got + fetched)
  {
    Tracker({}, map[], map[], map[], Record(t.answers, t.requests.Keys, t.requests, t.got + fetched))
  }

  // What a batch may choose, and what the code needs to run through.
  predicate BatchOk(p: Params, s: State, ch: Choices) {
    && IsScan(s.freqs, Eligible(s), ch.chosen) && |s.ops| + p.F + |ch.chosen| == p.B
    && IsScan(s.fakes, s.fakes.Keys, ch.fakeKeys) && |ch.fakeKeys| == p.F
    && |Through(s, ch)| >= |Reads(s, ch)| && |ch.cells| == p.B
    && (forall i :: 0 <= i < |Reads(s, ch)| ==> Wraps(ch.cells[i], Evictions(s, ch)[i].value))
    && (forall i :: |Reads(s, ch)| <= i < p.B ==> WrapsNoise(ch.cells[i], p.objectSize))
    && ch.pops <= |s.queue|
    && Ready(s.tracker.requests.Keys, s.tracker.requests, s.tracker.got + Fetched(s, Reads(s, ch)))
  }

  function Batch(p: Params, s: State, ch: Choices): State
    requires BatchOk(p, s, ch)
  {
    var taken := Reads(s, ch);
    var drop := Elems(s.pending);
    State(
      FreqsAfter(s, ch),
      DropStamps(s.stamps, taken, drop),
      FakesAfter(s, ch),
      Through(s, ch)[|taken|..],
      map[],
      AnswerAll(s.tracker, Fetched(s, taken)),
      Without(s.pending, Elems(taken)),
      [], 0, s.nextId, s.clock + 1,
      PutAll(Clear(s, ch.pops).store, WriteTags(s, ch), ch.cells),
      s.queue[ch.pops..] + [ReadTags(s, ch)],
      s.hist, s.written + Elems(WriteTags(s, ch)), s.read + Elems(ReadTags(s, ch)), s.asked)
  }

  // ---- runs ----

  datatype Step = GetStep(item: Item, lo: int, hi: int) | PutStep(key: Key, value: Bytes) | ClearStep | BatchStep(ch: Choices)

  // The round loop takes another request only while it has counted fewer than R operations. A round may end earlier,
  // when the proxy shuts down.
  ghost predicate Enabled(p: Params, s: State, step: Step) {
    match step
    case GetStep(item, lo, hi) => s.slots < p.R && |SplitOf(s, item, lo, hi)| <= p.M
    case PutStep(k, v) => s.slots < p.R && PutOk(s, k, v)
    case ClearStep => s.queue != []
    case BatchStep(ch) => BatchOk(p, s, ch)
  }

  ghost function Next(p: Params, s: State, step: Step): State
    requires Enabled(p, s, step)
  {
    match step
    case GetStep(item, lo, hi) => Get(s, item, lo, hi)
    case PutStep(k, v) => Put(s, k, v)
    case ClearStep => Clear(s, 1)
    case BatchStep(ch) => Batch(p, s, ch)
  }

  // Any interleaving of requests, batches and background deletions, from its first state to its last: a run is one state, or
  // a run and one more step.
  ghost predicate Run(p: Params, ss: seq<State>, steps: seq<Step>)
    decreases |steps|, 1
  {
    |ss| == |steps| + 1 && (steps != [] ==> RunAndStep(p, ss, steps))
  }

  ghost predicate RunAndStep(p: Params, ss: seq<State>, steps: seq<Step>)
    requires steps != [] && |ss| == |steps| + 1
    decreases |steps|, 0
  {
    var n := |steps| - 1;
    Run(p, ss[..n + 1], steps[..n]) && Enabled(p, ss[n], steps[n]) && ss[n + 1] == Next(p, ss[n], steps[n])
  }
}
