# TS-Waffle proxy: rounds, batches and their guarantees

This project models the proxy of TS-Waffle, an oblivious time-series store, and proves what its protocol promises. The
proxy keeps a small cache and talks to an untrusted key-value store. It collects client requests into rounds, pads every
round to a batch of exactly `B` reads, reads each tag once, re-encrypts what it evicts under a new version, and leaves the
tags it read to a background thread that deletes them. A range GET is split over time buckets and answered with a sum; a
PUT of a new bucket pushes the oldest bucket of its item out.

## What is modelled

* `Texts`, `Keys`, `Values`: record names and tags as texts, the non-deterministic encryption over an abstract cipher, and
  the bucket serialisation.
* `Frequencies`, `Caches`, `Running`: the classes `FrequencySmoother`, `Cache` and `RunningKeys` with the fields and the
  in-place updates of `FrequencySmoother.cpp`, `Cache.cpp` and `ThreadSafeUnorderedMap.h`.
* `Splits`: the range split of `get_split_keys`.
* `Protocol`: the proxy as a state and four steps on it: a GET, a PUT, a batch, and one turn of the clear thread, which may
  come at any time, also between the read and the write of a batch. A run is any interleaving of enabled steps. The state
  has four history fields (values inserted, tags written, tags read, splits asked for) that no step looks at.
* `Invariant`: what every reachable state satisfies. `GetProofs`, `PutProofs`, `BatchProofs`, `BatchKeeps` and `Runs` prove
  that the steps keep it.
* `Refinement`, `Victims`, `Clearing`, `Traffic`, `Order`, `Staleness`, `Retention`: the consequences for a state, a step and a
  run.
* `Theorems`: the guarantees over every execution, that is, every interleaving of requests, batches and background deletions
  that starts where `init` leaves the proxy.
* `Loops`, `Exchanges`, `Batching`, `Starting`, `Serving`, `Proxy`: the class `WaffleProxy`, whose methods follow
  `waffle_proxy.cpp` loop by loop. Each is proved to take exactly the step the protocol describes, and `Session` shows that
  init, rounds and background deletions make an execution that serves the given requests in their order.

Reading order: `Protocol.dfy` for the steps, `Theorems.dfy` for the results, `Invariant.dfy` for why they hold, and `Proxy.dfy`
for the code.

## Assumptions

They are stated as `requires`, in `Sane`, `RollsOk`, `PutOk` and `Enabled`.

* One consumer thread and one storage server (`waffle/server/src/proxy_server.cpp:104`, `waffle/libstorage/src/redis.cpp:51-95`).
* At the start there are `N` records, `C >= 1` of them cached, and `D` fake records; `D >= F >= 1`, `N - C >= B - F` and
  `R - 1 + M + F <= B`, where `M` bounds the longest split of a GET. `B` is a 32-bit int.
* A PUT has a value that is not empty and has no NUL byte, for an item that has a bucket, with a timestamp above all earlier
  ones of that item, as the trace generator does (`waffle/utils/TS_value_master.h:203-225`).

Where the code needs an assumption, or does less than one might expect, the exact condition is proved:

* A value survives encryption exactly when it has no NUL byte (`Values.DecryptEncrypt`). The int and bool vectors of the
  serialiser often have one: an int vector survives exactly when no word has a zero byte, a bool vector exactly when all
  elements are true (`Values.IntsSurvive`, `Values.BoolsSurvive`), and the int 1 does not (`Values.OneIsLost`). The sum of a
  GET is over what the store gives back, so the assumption on PUT values decides which sums are meaningful.
* Inserting a key keeps the frequency index consistent exactly when the key was not there under another frequency
  (`Frequencies.FrequencySmoother.Insert`), and a whole PUT exactly when no old node of its key stays in the tree
  (`Proxy.WaffleProxy.PutOne`).
* A GET is answered exactly when its split is not empty; `Theorems.AnsweredIff` gives the condition on the item's buckets.
* A PUT can go in front of a record that waits in the store, exactly under the condition of `Staleness.PutPassesIff`; the
  bound of `Theorems.RealReadInTime` counts from the start of a batch, where it cannot.

`prf(key#version)` is modelled as the pair of record and version. `Keys.TagTextInjective` shows that the text determines the
pair; the hash itself is taken to be injective.

## Model

| member | source | states |
|---|---|---|
| Theorems.OnePlaceEach | waffle/proxy/src/waffle_proxy.cpp:475-540 | At every moment of an execution a live record is in exactly one place, the cache or the store under its current tag, and however often it was moved and re-encrypted, it decrypts to the value it was inserted with. |
| Theorems.RefinesMap | waffle/proxy/src/waffle_proxy.cpp:242-561 | Every step of every execution does to the clients' map what the abstract machine does: nothing for a GET or a deletion, one update and at most one removal for a PUT, and dropping exactly the registered records for a batch, whatever padding and ciphertexts it chose. |
| Theorems.VictimGoes | waffle/proxy/src/waffle_proxy.cpp:242-282 | When a PUT comes for an item and v is the oldest live bucket of that item, v is gone from the next batch on, and never comes back. |
| Theorems.VictimNow | waffle/proxy/src/waffle_proxy.cpp:259-282 | It goes with the PUT itself exactly when it is cached; from the store it goes with the batch. |
| Theorems.OnlyVictimsGo | waffle/proxy/src/waffle_proxy.cpp:242-282 | Nothing else is ever removed: a record that goes at a step was the oldest live bucket of its item at a PUT for that item, which is that step or came earlier in the round whose batch that step is. |
| Theorems.AnsweredOnce | waffle/proxy/src/ThreadSafeUnorderedMap.h:28-100 | A GET with a non-empty split is unanswered on arrival; from the batch of its round on, its promise has been set exactly once, to the sum over its split of the values at arrival. |
| Theorems.IntAnswer | waffle/proxy/src/ThreadSafeUnorderedMap.h:131-142 | For an int item that one answer is the sum of all ints of all buckets of the split, the first and the last included. |
| Theorems.BoolAnswer | waffle/proxy/src/ThreadSafeUnorderedMap.h:157-169 | For an item of any type but int and float it is the number of elements that are true in all buckets of the split. |
| Theorems.AnsweredIff | waffle/proxy/src/waffle_proxy.cpp:689-759 | A GET is ever answered exactly when its item has a bucket at or before the end of the range and none strictly between the end and the start. |
| Theorems.NeverAnsweredTwice | waffle/proxy/src/ThreadSafeUnorderedMap.h:60-100 | At no moment has a promise been set twice, and an answered request is no longer pending. |
| Theorems.TrafficIsConstant | waffle/proxy/src/waffle_proxy.cpp:393-547 | Every batch reads exactly B different tags, all still in the store, writes exactly B different tags never written before, and queues exactly the tags it read. |
| Theorems.TagsInOrder | waffle/proxy/src/waffle_proxy.cpp:393-530 | A batch reads what the round asked for, then the padding, then fake records, each under its current tag; it writes the pairs it evicts, in the order in which they came to the cache, then the fake records, each under its new tag. |
| Theorems.FakesAreNoise | waffle/proxy/src/waffle_proxy.cpp:159-164 | At every moment, the start included, every fake record is in the store under its current tag, as a ciphertext of as many random characters as an object has. |
| Theorems.TagsOnce | waffle/proxy/src/waffle_proxy.cpp:393-547 | Two different batches of an execution share no written tag and no read tag. |
| Theorems.DeletionSafe | waffle/proxy/src/waffle_proxy.cpp:803-815 | A tag queued for deletion is not live at any later moment, and no later batch reads or writes it. |
| Theorems.QueueInOrder | waffle/proxy/src/waffle_proxy.cpp:547-547 | The deletion queue is first in, first out: it is what all batches have read so far, less the lists taken from its front. |
| Theorems.StoreInOrder | waffle/proxy/src/waffle_proxy.cpp:803-815 | The store holds every tag that was ever written but those on the lists taken from the queue: nothing else is deleted, and nothing of those is left. |
| Theorems.SizesStay | waffle/proxy/src/waffle_proxy.cpp:484-547 | The number of records outside the cache is N - C at every moment, coalesced deletions included, the cache never falls below C, and the store's size less the tags queued for deletion never changes. |
| Theorems.NeverStuck | waffle/proxy/src/waffle_proxy.cpp:413-456 | At every moment the unsigned B - (ops + F) is the true difference, and there are at least that many records for the padding scan, which never tests for the end of the tree, and F fake records. |
| Theorems.NoDeadlock | waffle/proxy/src/waffle_proxy.cpp:372-561 | At every moment a batch is enabled, whatever is deleted in the middle of it, so no execution is stuck. |
| Theorems.QuietAfterBatch | waffle/proxy/src/waffle_proxy.cpp:535-547 | After every batch the tracker's four maps, the evicted items, keys_to_be_deleted and the round's reads are empty. |
| Theorems.CacheInOrder | waffle/proxy/src/waffle_proxy.cpp:475-523 | The cache is a queue: GETs and deletions leave it alone, a PUT puts its pair last and takes out at most its victim, and a batch takes pairs from the front and adds what it read at the back, in the order in which it was read. |
| Theorems.VersionsCount | waffle/proxy/src/waffle_proxy.cpp:393-456 | The batch number counts the batches; a PUT gives its record the current one, a batch the next one to all it reads, and no other version changes. |
| Theorems.RoundCounts | waffle/proxy/src/waffle_proxy.cpp:735-767 | A round counts one operation for each bucket of a split and one for a PUT, takes another request only while it has counted fewer than R, and never counts more than R - 1 + M; each GET gets the next request id. |
| Theorems.AsksInOrder | waffle/proxy/src/waffle_proxy.cpp:259-341 | A round asks the store for exactly what is needed and neither cached nor asked for already: the buckets of a split, the oldest first, or the victim of a PUT. |
| Theorems.PadsInOrder | waffle/proxy/src/waffle_proxy.cpp:411-440 | A padding record is one of the store that the round did not ask for, and comes before every record of the store that the batch does not read: touched by an earlier batch, or by the same one with the smaller text. |
| Theorems.FakesInOrder | waffle/proxy/src/waffle_proxy.cpp:441-456 | The fake records a batch reads come before all others in the same order. |
| Theorems.LeastIsEvicted | waffle/proxy/src/Cache.cpp:59-88 | The next pair to be evicted has the least version in the cache, and no record in the store has a greater version than a cached one. |
| Theorems.FakesFresh | waffle/proxy/src/waffle_proxy.cpp:441-456 | At every moment each fake record was read within the last ceil(D/F) batches, or no more than that many have run. |
| Theorems.FakeReads | waffle/proxy/src/waffle_proxy.cpp:441-456 | When a batch reads a fake record, the record was last read at most ceil(D/F) batches ago. |
| Theorems.FakeReadWithin | waffle/proxy/src/waffle_proxy.cpp:441-456 | Every stretch of an execution with ceil(D/F) batches reads every fake record in one of them. |
| Theorems.RealReadInTime | waffle/proxy/src/waffle_proxy.cpp:411-440 | A record in the store at the start of a batch, with r predecessors, is read within floor(r/n) + 1 batches when each pads with at least n records, whatever PUTs, GETs and deletions come between. |
| Theorems.RealReadAnyway | waffle/proxy/src/waffle_proxy.cpp:411-440 | The same with n = B - F - (R - 1 + M) and nothing assumed of the batches, when that number is positive. |
| Theorems.WindowSlides | waffle/proxy/src/waffle_proxy.cpp:242-282 | A bucket that was live and no longer is, is older than every live bucket of its item. |
| Theorems.BucketsNeverFewer | waffle/proxy/src/FrequencySmoother.cpp:222-248 | At every moment every item has at least as many buckets as it started with. |
| Runs.RunConcat | waffle/proxy/src/waffle_proxy.cpp:735-772 | A run that starts where another ends continues it: the rounds of a session join to one execution. |
| Runs.InitialInv | waffle/proxy/src/waffle_proxy.cpp:124-186 | The data placement of init satisfies the whole invariant. |
| Runs.RunKeeps | waffle/proxy/src/waffle_proxy.cpp:242-561 | Every state of every run, whatever requests, batches and deletions are interleaved, satisfies the invariant. |
| Runs.RunGrows | waffle/proxy/src/waffle_proxy.cpp:372-561 | Between any two states of a run history only grows: no written or read tag, inserted value, asked split or answer is lost or changed. |
| GetProofs.GetKeeps | waffle/proxy/src/waffle_proxy.cpp:745-760 | A range GET keeps the invariant, for every mix of cache hits, shared misses and pending deletions in its split. |
| PutProofs.PutKeeps | waffle/proxy/src/waffle_proxy.cpp:242-282 | A PUT keeps the invariant, whether its victim is cached, in the store, or already registered by another PUT of the round. |
| PutProofs.ClearKeeps | waffle/proxy/src/waffle_proxy.cpp:803-815 | Any number of background deletions keeps the invariant and leaves the clients' map as it is. |
| BatchKeeps.BatchKeepsInv | waffle/proxy/src/waffle_proxy.cpp:372-561 | A batch keeps the invariant, with deletions popped in the middle of it. |
| Refinement.PutRefines | waffle/proxy/src/waffle_proxy.cpp:342-369 | On the clients' map a PUT is one update, and one removal when the item's oldest bucket is cached. |
| Refinement.BatchMap | waffle/proxy/src/waffle_proxy.cpp:475-547 | On the clients' map a batch drops exactly the records registered for deletion, whichever padding keys and ciphertexts it chose. |
| Refinement.StepRefines | waffle/proxy/src/waffle_proxy.cpp:242-561 | Every enabled step does to the clients' map what the abstract machine MapAfter does. |
| Refinement.EmptyNeverAnswered | waffle/proxy/src/waffle_proxy.cpp:749-759 | A GET with an empty split is never answered, in any later state of the run. |
| Serving.NoConflicts | waffle/proxy/src/ThreadSafeUnorderedMap.h:44-51 | The branch of insert_cache that ends the process is unreachable for every live key. |
| GetProofs.SplitIsLive | waffle/proxy/src/waffle_proxy.cpp:298-303 | Every sub-operation names a record in the index and none is repeated, so "No record found" is never answered. |
| Clearing.EndOfRound | waffle/proxy/src/ThreadSafeUnorderedMap.h:84-100 | tryClearAllPromises answers exactly the requests whose values are all at hand. |
| Clearing.NothingErased | waffle/proxy/src/ThreadSafeUnorderedMap.h:60-82 | While promises are cleared no request id that was already erased is looked up. |
| Clearing.ClearOne | waffle/proxy/src/ThreadSafeUnorderedMap.h:60-82 | Clearing one more record takes the tracker from the state for the records cleared so far to the state for one more, whatever the order. |
| Clearing.AllCleared | waffle/proxy/src/waffle_proxy.cpp:541-544 | Once all fetched records are cleared, in any order, the tracker is empty and every request has had its one answer. |
| Traffic.DeletionAnytime | waffle/proxy/src/waffle_proxy.cpp:803-815 | Deleting before a batch or in the middle of it ends in the same state. |
| Batching.NoWrap | waffle/proxy/src/waffle_proxy.cpp:416-416 | The unsigned subtraction is exact if and only if nothing is borrowed. |
| BatchProofs.EnoughCached | waffle/proxy/src/waffle_proxy.cpp:484-523 | The cache and what enters it in a batch come to at least C pairs more than are evicted. |
| Exchanges.MidPrefix | waffle/proxy/src/waffle_proxy.cpp:491-497 | At each single eviction the cache is not empty, so no pair of empty strings is written; what has passed through the cache by then is the start of what passes through it in the whole batch. |
| Retention.ScanUnique | waffle/proxy/src/waffle_proxy.cpp:411-456 | Both padding choices are determined by the state: the start of a pool in (frequency, key) order is unique. |
| Staleness.BatchAdvances | waffle/proxy/src/waffle_proxy.cpp:411-440 | A batch that does not read a waiting record brings it forward by at least the number of its padding reads. |
| Staleness.PutPassesIff | waffle/proxy/src/waffle_proxy.cpp:342-369 | A PUT raises the rank of a waiting record exactly when the record has the number of the latest batch, the new key is before it in key order, and no cached victim in front of it is dropped. |
| Staleness.PutRank | waffle/proxy/src/waffle_proxy.cpp:342-369 | The rank of a waiting record after a PUT, exactly: one more for a new key in front, one less for a cached victim dropped from in front. |
| Staleness.FirstRoundPut | waffle/proxy/src/waffle_proxy.cpp:342-369 | It does happen: in the first round, with a@0 and b@0 in the store, a PUT of a@1 goes in front of b@0. |
| Staleness.PutDoesNotPass | waffle/proxy/src/waffle_proxy.cpp:342-369 | A PUT puts nothing in front of a record that was last touched before the latest batch. |
| Staleness.RankFalls | waffle/proxy/src/waffle_proxy.cpp:411-440 | While a record waits, over a stretch of a run that starts with a batch, or with the record last touched before the latest batch, its rank falls by n for each batch with n padding reads, and never rises. |
| Splits.SplitTimes | waffle/proxy/src/waffle_proxy.cpp:701-719 | The cut between one before the lower bound and the upper bound is, in ascending order, exactly the wanted set. |
| Splits.SplitKeysAre | waffle/proxy/src/waffle_proxy.cpp:708-727 | A split names exactly the buckets of the item in the range and the last one before it, each once, in ascending time. |
| Splits.WantedIsRangeAndPredecessor | waffle/proxy/src/waffle_proxy.cpp:708-719 | For start <= end the wanted buckets are those in the range and the greatest one below its start, and nothing else. |
| Splits.WantedOfInvertedRange | waffle/proxy/src/waffle_proxy.cpp:708-719 | For end < start only the greatest bucket below the start is wanted, and only if it is not after the end. |
| Splits.EmptySplit | waffle/proxy/src/waffle_proxy.cpp:708-719 | A split is empty exactly when every bucket is after the end or some bucket lies strictly between end and start. |
| Proxy.WaffleProxy.Init | waffle/proxy/src/waffle_proxy.cpp:124-186 | For any draws, repetitions rejected, init leaves an initial state of the protocol that holds the given values and, for every fake record, encrypted noise of the object size. |
| Starting.RollsSuffice | waffle/proxy/src/waffle_proxy.cpp:131-166 | The drawing loops end exactly when the draws contain C different records and D different names. |
| Proxy.WaffleProxy.GetSplitKeys | waffle/proxy/src/waffle_proxy.cpp:689-727 | Returns the split of the range and changes nothing but a possible empty index entry. |
| Proxy.WaffleProxy.RemoveOldestData | waffle/proxy/src/waffle_proxy.cpp:242-282 | Drops the item's oldest bucket from the cache or the evicted items, or registers it and asks for it unless it is being read; VictimGoes says when it goes. |
| Proxy.WaffleProxy.GetOne | waffle/proxy/src/waffle_proxy.cpp:289-341 | Exactly for an unknown key the promise is told so; exactly for a conflicting value the process ends; otherwise the sub-operation is recorded as a hit or a wait. |
| Proxy.WaffleProxy.PutOne | waffle/proxy/src/waffle_proxy.cpp:342-369 | For any key of an item with buckets, live or new, the new state is the victim's removal followed by the insertion under the current batch number; the frequency index still agrees exactly when no old node of the key is left in the tree. |
| Serving.TreeAfterPut | waffle/proxy/src/FrequencySmoother.cpp:62-113 | Inserting a key at 0 and then setting its frequency leaves the tree in agreement exactly when the key was new, or had frequency 0 or the new one. |
| Proxy.WaffleProxy.CreateSecurityBatch | waffle/proxy/src/waffle_proxy.cpp:285-370 | An empty value is a GET, any other a PUT; the new state and the agreement of the index are those of the branch. |
| Proxy.WaffleProxy.ServeGet | waffle/proxy/src/waffle_proxy.cpp:745-760 | The loop over the split takes the GET step of the protocol and meets no unknown key and no conflict. |
| Proxy.WaffleProxy.ServePut | waffle/proxy/src/waffle_proxy.cpp:761-766 | Takes the PUT step of the protocol, for any value that is not empty. |
| Loops.ReadAndStamp | waffle/proxy/src/waffle_proxy.cpp:393-409 | Collects each key's current tag and stamps the keys with the new batch number, keeping the index consistent. |
| Loops.PadWithReal | waffle/proxy/src/waffle_proxy.cpp:411-429 | Takes the first records of the pool in tree order, exactly as many as needed, and ends inside the tree. |
| Loops.PadWithFake | waffle/proxy/src/waffle_proxy.cpp:441-456 | Takes the F fake records longest unread, each once, and never meets a busy one. |
| Proxy.WaffleProxy.SelectReads | waffle/proxy/src/waffle_proxy.cpp:393-456 | The tags asked for are those of the round's reads, the padding and the fake records; the frequencies are stamped. |
| Loops.GetBatch | waffle/libstorage/src/redis.cpp:51-95 | With one server the answers come in the order of the keys. |
| Loops.PutBatch | waffle/libstorage/src/redis.cpp:98-120 | Writes every pair, later ones over earlier ones. |
| Proxy.WaffleProxy.ExchangeOne | waffle/proxy/src/waffle_proxy.cpp:484-523 | One turn of the exchange loop: evicts the queue's next pair under its new version and lets the read record in, or drops it if registered. |
| Proxy.WaffleProxy.Exchange | waffle/proxy/src/waffle_proxy.cpp:481-523 | After all real records the cache, index and registrations are those of the batch's closed form. |
| Proxy.WaffleProxy.RewriteFakes | waffle/proxy/src/waffle_proxy.cpp:523-530 | Every fake record gets encrypted noise of the object size under its new version. |
| Proxy.WaffleProxy.ClearThread | waffle/proxy/src/waffle_proxy.cpp:803-815 | Pops one batch of tags and deletes exactly those. |
| Loops.ClearPromises | waffle/proxy/src/waffle_proxy.cpp:541-544 | In whatever order the pairs come, every awaited record is cleared and nothing is left running. |
| Proxy.WaffleProxy.ExecuteBatch | waffle/proxy/src/waffle_proxy.cpp:372-561 | Runs through from every reachable state and ends in the batch step of the protocol, with deletions in the middle of it. |
| Proxy.WaffleProxy.EndRound | waffle/proxy/src/waffle_proxy.cpp:769-771 | From every state of the invariant the end of a round is a batch step. |
| Proxy.WaffleProxy.ConsumerRound | waffle/proxy/src/waffle_proxy.cpp:735-772 | One round of the consumer thread, whatever it finds when it polls its queue, is a run of the protocol: the n-th request found is the n-th step, with the same item and bounds, or key and value, then comes one batch; it ends early only at shutdown. |
| Proxy.WaffleProxy.ServeOne | waffle/proxy/src/waffle_proxy.cpp:743-766 | A GET request takes the GET step with its own item and bounds, a PUT request the PUT step with its own key and value. |
| Serving.TurnServes | waffle/proxy/src/waffle_proxy.cpp:735-772 | The n-th request found in a turn is its n-th step, with the same item and bounds, or the same key and value; then comes the batch. |
| Serving.FoundConcat | waffle/proxy/src/waffle_proxy.cpp:740-742 | Looks at the queue that find nothing leave no trace, and what is found is found in its order. |
| Proxy.WaffleProxy.Session | waffle/proxy/src/waffle_proxy.cpp:81-815 | init, any number of rounds and turns of the clear thread between and during them make an execution that starts with the given values and is cut into the given turns, in their order. |
| Exchanges.ExchangeEnd | waffle/proxy/src/waffle_proxy.cpp:484-523 | The exchanges one by one come to the closed form: the cache is one queue from which each read pushes one pair out. |
| Batching.WaitingStays | waffle/proxy/src/ThreadSafeUnorderedMap.h:84-100 | The answers at the end of a round never forget a key that is still to be read. |
| Starting.StartIsInitial | waffle/proxy/src/waffle_proxy.cpp:124-186 | What the loops of init leave is an initial state: all versions 0, cached records out of the store, the rest in it, and the fakes in it as noise of the object size. |
| Frequencies.FrequencySmoother.Insert | waffle/proxy/src/FrequencySmoother.cpp:55-76 | The three views still agree exactly when the key was not there under another frequency. |
| Frequencies.FrequencySmoother.SetFrequency | waffle/proxy/src/FrequencySmoother.cpp:105-113 | Changes one frequency and keeps the three views in agreement. |
| Frequencies.FrequencySmoother.RemoveKey | waffle/proxy/src/FrequencySmoother.cpp:117-134 | Removes the key from all three views, and an item with its last bucket. |
| Frequencies.FrequencySmoother.GetFrequency | waffle/proxy/src/FrequencySmoother.cpp:156-159 | Gives the frequency; an absent key gets frequency 0 and an entry. |
| Frequencies.FrequencySmoother.GetKeyWithMinFrequency | waffle/proxy/src/FrequencySmoother.cpp:90-93 | The head of the tree is a true minimum of the frequency map in the order of FreqCmpIff. |
| Frequencies.FrequencySmoother.Ordered | waffle/proxy/src/FrequencySmoother.cpp:166-169 | An iterator from the head runs through every entry once, in the order of FreqCmpIff. |
| Frequencies.FrequencySmoother.GetOldestKey | waffle/proxy/src/FrequencySmoother.cpp:222-248 | The bucket returned is in the index and no bucket of the item is older. |
| Frequencies.FrequencySmoother.GetTimestampForKey | waffle/proxy/src/FrequencySmoother.cpp:250-253 | Gives the item's timestamps; an unknown item leaves an empty set behind. |
| Frequencies.GraphSet | waffle/proxy/src/FrequencySmoother.cpp:105-122 | Erasing the old node and inserting the new one keeps the tree the graph of the frequency map. |
| Frequencies.AddStampIndexed | waffle/proxy/src/FrequencySmoother.cpp:65-72 | Adding a timestamp keeps the index on exactly the live keys. |
| Frequencies.DropStampIndexed | waffle/proxy/src/FrequencySmoother.cpp:123-133 | Dropping a timestamp, and an emptied item, keeps the index on exactly the live keys. |
| Caches.Cache.InsertIntoCache | waffle/proxy/src/Cache.cpp:59-76 | The pair goes to the front of the list, a former pair of the key is gone, and the map agrees. |
| Caches.Cache.EvictLRElementFromCache | waffle/proxy/src/Cache.cpp:79-88 | Takes the pair at the back, or none when the cache is empty. |
| Caches.Cache.RemoveKey | waffle/proxy/src/Cache.cpp:89-95 | Cuts the key's pair out and says whether there was one. |
| Caches.Cache.GetValueWithoutPositionChangeNew | waffle/proxy/src/Cache.cpp:102-110 | Gives the value and whether it is there, and moves nothing. |
| Caches.EraseKeys | waffle/proxy/src/Cache.cpp:89-95 | Erasing a node removes exactly its key from the list and the map. |
| Running.RunningKeys.InsertIfNotPresent | waffle/proxy/src/ThreadSafeUnorderedMap.h:15-26 | Says whether the key is being read or awaited, and marks it in any case. |
| Running.RunningKeys.InsertGetIfNotPresent | waffle/proxy/src/ThreadSafeUnorderedMap.h:28-42 | Registers the request as waiting for the key and says whether the key was busy before. |
| Running.RunningKeys.InsertCache | waffle/proxy/src/ThreadSafeUnorderedMap.h:44-58 | Notes the value for the request, or reports the conflict exactly when another value was noted. |
| Running.RunningKeys.TryClearPromises | waffle/proxy/src/ThreadSafeUnorderedMap.h:60-82 | Answers the requests the value completes, and empties the maps with the last of them. |
| Running.RunningKeys.TryClearAllPromises | waffle/proxy/src/ThreadSafeUnorderedMap.h:84-100 | Answers every request whose values are all at hand. |
| Running.AnswerFulfilled | waffle/proxy/src/ThreadSafeUnorderedMap.h:67-92 | Visiting the ids in any order answers each fulfilled request once and no other. |
| Running.IsFulfilled | waffle/proxy/src/ThreadSafeUnorderedMap.h:121-129 | True exactly when every key of the request has a value. |
| Running.DeserializeAndSum | waffle/proxy/src/ThreadSafeUnorderedMap.h:131-169 | The loops compute the sum over the keys, repeated keys counted each time; SumOfInts and SumOfBools say what that is. |
| Running.Answered | waffle/proxy/src/ThreadSafeUnorderedMap.h:171-188 | The answer depends on the type named in the first key; AnswerOfInts, AnswerOfBools and AnswerOfFloats say what it is. |
| Running.SumOfInts | waffle/proxy/src/ThreadSafeUnorderedMap.h:131-142 | The sum over any keys that hold int vectors is the sum of all their ints. |
| Running.SumOfBools | waffle/proxy/src/ThreadSafeUnorderedMap.h:157-169 | The sum over any keys that hold bool vectors is the number of their true elements. |
| Running.SumOverConcat | waffle/proxy/src/ThreadSafeUnorderedMap.h:131-169 | The sum over two lists of keys is the sum of the two sums. |
| Running.SumOverOneInts | waffle/proxy/src/ThreadSafeUnorderedMap.h:131-142 | A single key adds the ints of its vector. |
| Running.SumOverOneBools | waffle/proxy/src/ThreadSafeUnorderedMap.h:157-169 | A single key adds its true elements. |
| Running.DataTypeIs | waffle/utils/utils.h:23-33 | The type is the text between the first two ampersands of the key. |
| Running.NoType | waffle/utils/utils.h:23-33 | With fewer than two ampersands it is string. |
| Running.AnswerOfInts | waffle/proxy/src/ThreadSafeUnorderedMap.h:171-180 | An int item is answered with the sum of its ints. |
| Running.AnswerOfBools | waffle/proxy/src/ThreadSafeUnorderedMap.h:171-188 | An item of any type but int and float is answered with the number of true elements. |
| Running.AnswerOfFloats | waffle/proxy/src/ThreadSafeUnorderedMap.h:180-183 | A float item is answered with all its values, in the order of the split. |
| PutProofs.AnswerFrame | waffle/proxy/src/ThreadSafeUnorderedMap.h:171-188 | The answer depends on nothing but the values of the request's keys. |
| Keys.TagTextInjective | waffle/proxy/src/waffle_proxy.cpp:398-398 | The text key#version determines record and version, even for names that contain a hash sign. |
| Keys.KeyTextInjective | waffle/proxy/src/waffle_proxy.cpp:724-724 | The text of a key determines the key. |
| Keys.SplitKeyText | waffle/proxy/src/FrequencySmoother.cpp:31-53 | Splitting the text of a bucket gives its item and timestamp back. |
| Keys.ParseRangeText | waffle/proxy/src/waffle_proxy.cpp:690-700 | Cutting a range request gives item, start and end back, negative bounds included. |
| Keys.FreqCmpTotal | waffle/proxy/src/FrequencySmoother.cpp:7-7 | The tree order decides between any two different entries. |
| Keys.FreqCmpAsymmetric | waffle/proxy/src/FrequencySmoother.cpp:7-7 | It never holds both ways. |
| Keys.FreqCmpTransitive | waffle/proxy/src/FrequencySmoother.cpp:7-7 | It is transitive, so the tree is well ordered. |
| Keys.FreqCmpIff | waffle/proxy/src/FrequencySmoother.cpp:7-7 | An entry is before another exactly when it has the lower frequency or, with equal ones, its text is the smaller at the first difference or the other begins with it. |
| Keys.KeyLessIff | waffle/proxy/src/FrequencySmoother.cpp:7-7 | Of two keys of one frequency the first is that with the smaller character at the first difference, or that with which the other begins. |
| Keys.LongerFirst | waffle/proxy/src/FrequencySmoother.cpp:7-7 | Length does not count: fakeAA is before fakez and a@10 before a@9. |
| Keys.Spelled | waffle/proxy/src/waffle_proxy.cpp:398-398 | Records, tags and range requests are spelled item@timestamp, key#version and item@start@end. |
| Texts.StolIntText | waffle/proxy/src/FrequencySmoother.cpp:43-49 | std::stol undoes std::to_string. |
| Texts.TextLessIff | waffle/proxy/src/FrequencySmoother.cpp:7-7 | The order of std::string: the first difference decides, and a text is before every longer one that begins with it. |
| Values.DecryptEncrypt | waffle/proxy/src/encryption_engine.cpp:529-550 | Decrypting an encryption gives the value back, hash signs included and whatever the suffix, if and only if it has no NUL byte. |
| Values.IntsSurvive | waffle/proxy/src/encryption_engine.cpp:529-550 | An int vector is read back from the store as it was if and only if none of its words has a zero byte. |
| Values.BoolsSurvive | waffle/proxy/src/encryption_engine.cpp:529-550 | A bool vector is read back as it was if and only if all its elements are true. |
| Values.OneIsLost | waffle/proxy/src/encryption_engine.cpp:529-550 | The vector of the single int 1 is read back as the empty vector. |
| Values.ExtractKeyByScan | waffle/proxy/src/encryption_engine.cpp:4-11 | The downward scan finds what stands before the last hash sign. |
| Values.ExtractKeyIs | waffle/proxy/src/encryption_engine.cpp:4-11 | Whatever stands before the last hash sign is the result; without a hash sign it is empty. |
| Values.EncryptNonDeterministic | waffle/proxy/src/encryption_engine.cpp:544-546 | The ciphertext seals the value, a hash sign and at most nine random characters. |
| Values.GenRandom | waffle/proxy/src/encryption_engine.cpp:13-26 | The text has the length asked for and only letters and digits. |
| Values.AlphanumIs | waffle/proxy/src/encryption_engine.cpp:13-26 | The characters drawn are exactly the letters and digits, each for one number. |
| Values.DeserializeSerialize | waffle/utils/TS_value_master.h:24-51 | Every int vector, the empty one included, is read back as it was. |
| Values.SerializeDeserialize | waffle/utils/TS_value_master.h:24-51 | Reserialising what was read from any byte string gives its longest prefix of whole words. |
| Values.SerializeIntsByCopy | waffle/utils/TS_value_master.h:24-31 | Copying the words into the buffer gives the serialisation. |
| Values.DeserializeIntsByCopy | waffle/utils/TS_value_master.h:43-51 | Copying into a vector one word too long and dropping the last word gives the whole words. |
| Values.SerializeBools | waffle/utils/TS_value_master.h:33-41 | The bytes written read back as the same bools. |
| Values.WordValue | waffle/utils/TS_value_master.h:24-31 | The four bytes of an int are its digits to the base 256, the least significant first, in two's complement. |
| Values.SumIntsConcat | waffle/proxy/src/ThreadSafeUnorderedMap.h:131-142 | The sum of two vectors is the sum of their sums. |
| Values.CountTrueConcat | waffle/proxy/src/ThreadSafeUnorderedMap.h:157-169 | The true elements of two vectors are counted one vector after the other. |

## Left out

- OpenSSL, HMAC and AES, key generation and the 4096-byte buffers of the cipher wrappers (`waffle/proxy/src/encryption_engine.cpp:521-542`): the cipher is an abstract invertible function and a ciphertext is identified with the text in it.
- Redis connections, futures and several servers: the store is one map with batch get, put and delete.
- Thrift code, clients, the responder thread and the promise of a PUT, which is set at once: plumbing.
- Mutexes and several consumers: one consumer and the clear thread are interleaved. The clear thread's turns fall between steps and between the read and the write of a batch; its waiting on an empty queue is not modelled.
- `Cache::getValue`, `incrementFrequency`, `addKey`, `getRUKey`, `removeKey_without_mutex`, the search functions, `TS_get_oldest_key.h` and `TS_search_master.h`: unused or superseded.
- Benchmarks, timers, latency and alpha logging, trace and item generation, configuration.
- Signed 32-bit overflow of the answers and of `timeStamp`: mathematical integers.
- std::stol outside the range of long: timestamps are mathematical integers.
- Running.Answered: keeps the sum of a float GET symbolic, as the list of the values to be added, because rounding is not modelled.
- A promise of a GET is identified with its request id; a promise is the list of values it was set to.
- The vectors of null pointers in `m_map_` are modelled by the presence of their keys.
- The frequency tree is a set of entries that is read in order, and the access list a sequence: node links and iterators are not modelled.
- Running.RunningKeys.TryClearPromises: erases the answered requests after its loop and not inside it; the ids are different, and when the map empties none is left to visit, so the result is the same.
- Proxy.WaffleProxy.Init: gets the random draws as parameters and fills the cache as it draws; the shuffling of the bulk load and its slices are not modelled.
- Proxy.WaffleProxy.GetSplitKeys: gets item, start and end instead of the text; cutting the text is Keys.ParseRangeText, and a malformed request, on which the code throws or reads past its parts, is not modelled.
- Proxy.WaffleProxy.ConsumerRound: gets what it finds at each look at its queue as a sequence, whose end stands for shutdown; the queue itself is not modelled.
- The consumer's locals storage_batch, i and request_id are fields of `WaffleProxy`, so that the state of a round can be named between its steps.
- A PUT for an item without buckets dereferences the end of an empty set (`waffle/proxy/src/FrequencySmoother.cpp:242-243`), which has no defined result: the methods require a bucket. The protocol's steps also exclude, in `PutOk`, values with a NUL byte and timestamps that are not new.
