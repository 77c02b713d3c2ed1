# Flux broker: a Dafny model

This project models the Flux message broker (`src/broker`) and proves what its state machines
keep over whole runs. Every rank of a Flux instance runs one broker; the brokers form a tree,
the tree-based overlay network, with rank 0 at the root.

Two kinds of files stand side by side. Objects that the broker updates in place are classes:
`ContentCache`, `ReduceHandle` with `HelloNode`, `EventBroker`, `LogBuffer`, `ModuleHost` and
`Services`. Each method of such a class does what the C function does, step by step and loop by
loop, and is tied by its contract to a function on values. The properties are proved about those
functions and about runs of any length built from them: `CacheModel` and the other `Cache*`
files, `Reduce`, `Hello`, `HelloRuns` and `HelloLive`, `Events`, `LogRing`, `LogAnswers` and
`LogFollower`, `LogHistory`, `Modules` and `ModuleAnswers`, `PurgeModel` and `PurgeRuns`,
`Routing` and the three `Traffic*` files.

## What is modelled

**Content cache** (`content-cache.c`). One cache is a map from blobref to entry, with the
flags valid, dirty, load pending and store pending, the parked requests, the running totals and
the bounded batch of outgoing stores. A tree of caches is a step relation: client requests,
deliveries in any order, answers of the backing store, and the backing service coming up. What
the walk of a hash meets first and whether a send fails at once are choices of the environment.

The comment at `src/broker/content-cache.c:416-421` promises that after a store RPC returns, the
entry may be loaded from any rank. The code does not keep that promise as it stands. A rank
above 0 answers the load of a child out of an entry that is still on its way to rank 0; the
child then holds a valid clean copy and answers stores of the same blob at once
(`src/broker/content-cache.c:559-580`). `StorePromiseBroken` is a run of five steps that ends
with a successful store of a blob that neither rank 0 nor the backing store has, on any tree
with a rank of depth two. The exact condition is that no rank above 0 hands out such a blob to a
child: `StoredIsDurable` proves the promise under it for every run, and `PrematureBreaks` shows
that whenever it is violated, by a blob within the child's size limit, two more steps break the
promise. A test that a cache could make before it answers is enough: `CautiousIsDurable` proves
the promise if ranks above 0 serve children only out of entries that are not dirty.

Three more interleavings are not guarded in the code. Each has a witness run and an exact
condition. (a) A failed load reply removes an entry that a store has filled meanwhile
(`FailedLoadLosesBlob`; `LoadReplyKeeps` is an if-and-only-if). (b) dropcache or a purge removes
a clean entry whose load is in flight (`DropOrphansLoad`; `EvictKeeps` is an if-and-only-if).
(c) A load joins an older load whose answer will be ENOENT (`LateLoadMisses`; `StoredIsFound` and
`HarmfulMisses` are the two halves of the condition). The accounting, the answers and the flush
wakeups of a cache are proved under (a) alone. A parked flush request loses its wakeup in exactly
one case, which `StoreReplyKeeps` states and `FlushForgotten` reaches.

What the answers say is stated by what the cache then holds (`CacheReplies`). A store that rank 0
answers while it has no backing store leaves the blob dirty, so that nothing drops it
(`HeldWithoutBacking`). A flush that rank 0 answers with success means that all it holds is in the
backing store (`FlushedIsBacked`), which needs none of the guards on children. The EIO of
`src/broker/content-cache.c:756` is never sent: a flush that has waited fails only with ENOSYS
(`FlushAnswer`). A purge spares what was used recently (`StaysCached`).

**Routing** (`broker.c`, `module.c`, `overlay.c`, `service.c`, `kary.c`). A message carries a
route stack. ROUTER and DEALER sockets behave as in the sections "The ROUTER Socket Type" and
"The DEALER Socket Type" of ZeroMQ RFC 28. Requests to a rank, to whoever is nearest, upstream,
and to ranks that do not exist are followed to their service and back. In `Traffic` any number of
them share the links, which are first-in first-out queues, and services answer in any order:
every request gets its one right answer, traffic drains, and requests from one rank to another
arrive in the order in which they were sent. The layout arithmetic of `kary.c` is proved to be
the tree that the routing proofs speak about.

**Reduction and hello** (`reduce.c`, `hello.c`). The reduction handle with its batches, timer
and high water mark, and the hello protocol that runs one on every rank. Rank 0's count is never
wrong, and `HelloLive` proves that the session completes.

**Events** (`publisher.c`, `broker.c`, `overlay.c`). Numbering on rank 0 and distribution down
the tree, with children that check in at any time and messages that may arrive twice.

**Log buffer** (`log.c`), **modules and services** (`broker.c`, `module.c`, `service.c`) and the
**endpoint expander** (`boot_pmi.c`). The loop that wakes sleeping log readers does not end when
a reader asked for an entry beyond the next one; `WakeEndsIff` gives the exact condition. A
synchronous unload destroys the requests that wait for a module; `DroppedIff` says exactly when,
and `UnloadDropsRequest` is a run in which the broker does it.

## Model

| member | source | states |
|---|---|---|
| `ContentCache.ContentCache.constructor` | src/broker/content-cache.c:990-1011 | a new cache is empty and satisfies the invariant |
| `ContentCache.ContentCache.InsertEntry` | src/broker/content-cache.c:215-230 | the totals stay the sums over the entries when an entry is added |
| `ContentCache.ContentCache.RemoveEntry` | src/broker/content-cache.c:244-253 | the totals stay the sums over the entries when one is removed; a reply still to come is orphaned |
| `ContentCache.ContentCache.Fill` | src/broker/content-cache.c:192-209 | a blob put into an invalid entry is accounted once |
| `ContentCache.ContentCache.LoadRequest` | src/broker/content-cache.c:307-403 | new state and messages are those of the value model, with exact totals |
| `ContentCache.ContentCache.LoadContinuation` | src/broker/content-cache.c:266-305 | parked loads all get the blob held or the error; a failed load removes the entry |
| `ContentCache.ContentCache.CacheStore` | src/broker/content-cache.c:476-514 | at most one store per entry is under way, and rank 0 respects the batch limit |
| `ContentCache.ContentCache.FillBlob` | src/broker/content-cache.c:536-559 | the entry holds the blob, dirty if it was not valid, and waiting loads are answered with it |
| `ContentCache.ContentCache.WriteBlob` | src/broker/content-cache.c:560-580 | write-through above rank 0 and write-back on rank 0, where without a backing store the entry is left dirty |
| `ContentCache.ContentCache.StoreRequest` | src/broker/content-cache.c:516-591 | new state and messages of a store are those of the value model, with exact totals |
| `ContentCache.ContentCache.FlushVisit` | src/broker/content-cache.c:622-632 | one entry on the flush walk is sent if it is dirty and not on its way |
| `ContentCache.ContentCache.CacheFlush` | src/broker/content-cache.c:609-638 | in any order of the hash and with any sends failing, exactly the other unsent dirty entries are sent until the batch is full, each once, and the last failure is reported |
| `ContentCache.ContentCache.FlushWalk` | src/broker/content-cache.c:622-632 | the loop keeps track of what it sent, what failed and what is left |
| `ContentCache.ContentCache.FlushRespond` | src/broker/content-cache.c:751-764 | all parked flush requests get the same answer: success if and only if nothing is dirty, else ENOSYS on rank 0 without a backing store and EIO otherwise |
| `ContentCache.ContentCache.FlushRequest` | src/broker/content-cache.c:766-801 | a flush is answered at once or parked, as in the value model |
| `ContentCache.ContentCache.Settle` | src/broker/content-cache.c:424-459 | a store reply ends the store, cleans the entry only if the blobref agrees, and answers all who wait |
| `ContentCache.ContentCache.StoreContinuation` | src/broker/content-cache.c:424-474 | a store reply settles the entry and then answers flushes, resumes the walk or waits |
| `ContentCache.ContentCache.BackingRequest` | src/broker/content-cache.c:640-673 | only rank 0 takes a backing store, and turning it on starts a flush |
| `ContentCache.ContentCache.DropcacheRequest` | src/broker/content-cache.c:680-718 | exactly the valid clean entries go |
| `ContentCache.ContentCache.PlanPurge` | src/broker/content-cache.c:806-836 | predicted totals are the totals after removal, each victim is clean, old and chosen while a target is exceeded, and at the end both targets are met or every survivor is spared for a reason |
| `ContentCache.ContentCache.RemoveAll` | src/broker/content-cache.c:837-842 | exactly the chosen entries are removed |
| `ContentCache.ContentCache.CachePurge` | src/broker/content-cache.c:806-847 | the purge carries out a justified and thorough plan, in the early return too |
| `ContentCache.ContentCache.HeartbeatEvent` | src/broker/content-cache.c:849-857 | a heartbeat evicts clean entries only, as a justified and thorough purge in the new epoch does |
| `ContentCache.ContentCache.Dispatch` | src/broker/content-cache.c:862-873 | every handler does what the value model says with exact totals; it keeps the accounting under guard (a), and with guard (b) every reply still finds its entry |
| `PurgeModel.AllDirty` | src/broker/content-cache.c:815-816 | when as many entries are dirty as there are entries, all are, so returning early is right |
| `PurgeModel.VictimOld` | src/broker/content-cache.c:822-825 | only valid clean entries are purged, and none whose last use is less than the old-entry limit of heartbeats ago |
| `PurgeModel.VictimNeeded` | src/broker/content-cache.c:819-828 | each victim is taken while there are too many bytes or too many entries, and a small one only while there are too many entries |
| `PurgeModel.WithinTargets` | src/broker/content-cache.c:819-821 | a cache within its targets loses nothing |
| `PurgeModel.SurvivorSpared` | src/broker/content-cache.c:818-836 | while a target is still exceeded every survivor is not valid, dirty, recent, or small with not too many entries |
| `PurgeRuns.NeverAhead` | src/broker/content-cache.c:849-857 | in every run with rising heartbeats no entry was used in a later epoch than the current one |
| `PurgeRuns.RecentSurvives` | src/broker/content-cache.c:824-825 | no heartbeat purges a blob that was loaded or stored less than the old-entry limit of heartbeats before |
| `PurgeRuns.StaysCached` | src/broker/content-cache.c:806-857 | so a blob in use stays in the cache with its bytes, unless a dropcache or a failed load takes it |
| `CacheLemmas.DirtySplits` | src/broker/content-cache.c:471 | dirty entries are those under way plus those unsent |
| `CacheLemmas.UnsentCount` | src/broker/content-cache.c:617 | `acct_dirty - flush_batch_count` does not underflow and is the number of unsent dirty entries |
| `CacheLemmas.MarkedTotals` | src/broker/content-cache.c:622-632 | what a walk does to the numbers of dirty, pending and unsent entries |
| `CacheLemmas.CacheFlushKeeps` | src/broker/content-cache.c:609-638 | a walk keeps the invariant, and with something to send and room it leaves a store under way |
| `CacheLemmas.LoadRequestKeeps` | src/broker/content-cache.c:344-403 | a load request keeps accounting, hashes and flush wakeups |
| `CacheLemmas.StoreRequestKeeps` | src/broker/content-cache.c:516-591 | a store request keeps accounting, hashes and flush wakeups |
| `CacheLemmas.LoadReplyKeeps` | src/broker/content-cache.c:266-305 | a load reply keeps the accounting if and only if it does not fail while a store of the entry is under way |
| `CacheLemmas.StoreReplyKeeps` | src/broker/content-cache.c:462-473 | after a store reply a parked flush still has a reply to wait for, except if and only if this was the last, the flush is unfinished and every send that would resume it fails at once |
| `CacheLemmas.FlushRequestKeeps` | src/broker/content-cache.c:766-801 | a parked flush has a store reply to wait for |
| `CacheLemmas.BackingKeeps` | src/broker/content-cache.c:640-673 | switching the backing store keeps accounting and flush wakeups |
| `CacheLemmas.EvictKeeps` | src/broker/content-cache.c:244-253 | removing clean entries always keeps the accounting, and orphans no reply if and only if none of them has a load in flight |
| `CacheLemmas.HandleKeeps` | src/broker/content-cache.c:862-873 | every handler keeps the accounting under guard (a) alone, replies find their entries with guard (b), and blobs stay under their hash with truthful replies |
| `CacheAnswers.LoadRequestBalanced` | src/broker/content-cache.c:377-388 | a load is answered once or parked, and at most one load RPC goes out per blobref |
| `CacheAnswers.LoadReplyBalanced` | src/broker/content-cache.c:297-303 | a load reply answers each parked load once |
| `CacheAnswers.StoreRequestBalanced` | src/broker/content-cache.c:550-568 | a store is answered once or parked, and at most one store RPC goes out per blobref |
| `CacheAnswers.StoreReplyBalanced` | src/broker/content-cache.c:455-473 | a store reply answers each parked store once, and each parked flush once or not yet |
| `CacheAnswers.HandleBalanced` | src/broker/content-cache.c:862-873 | in every handler, under guard (a), requests received equal answers sent plus requests newly parked; with guard (b) the pending bits count the RPCs under way |
| `CacheEffects.HandleEffect` | src/broker/content-cache.c:862-873 | how an entry may change in one call and what each message sent says about the state left behind |
| `CacheReplies.StoreAnswer` | src/broker/content-cache.c:516-591 | a successful store leaves the blob valid, and dirty on rank 0 without a backing store; a failed one says EFBIG for a blob over the limit, the errno of the send or of the reply, or EIO for a wrong blobref |
| `CacheReplies.StoreCleans` | src/broker/content-cache.c:444-452 | a store reply leaves its entry clean if and only if it confirms the blobref |
| `CacheReplies.StoreSends` | src/broker/content-cache.c:476-514 | a dirty blob is sent at once unless it is on its way, rank 0 has no backing store or a full batch, or the send fails |
| `CacheReplies.LoadAnswer` | src/broker/content-cache.c:266-403 | a load is given the bytes held, ENOENT by a rank 0 with neither entry nor backing store, or the errno of the send or reply, where only a missing service on rank 0 is reported as ENOENT |
| `CacheReplies.FlushAnswer` | src/broker/content-cache.c:751-801 | a flush succeeds if and only if nothing is dirty; the request fails only by a send, and one that waited only with ENOSYS on rank 0 without a backing store |
| `CacheReplies.BackingAnswer` | src/broker/content-cache.c:640-673 | on rank 0 the backing bit becomes what was asked for, other ranks answer EINVAL, and only switching it on sends anything |
| `CacheReplies.DropLeaves` | src/broker/content-cache.c:680-718 | after dropcache no valid clean entry is left and every other entry is as it was |
| `CacheReplies.RestStays` | src/broker/content-cache.c:849-857 | the backing bit and the epoch change by their own messages only |
| `CacheReplies.LowWater` | src/broker/content-cache.c:462-473 | a store reply sends more only with at most half of the batch outstanding, and leaves something unsent only with more than half, a failed send or no backing store |
| `CacheReplies.DirtyStays` | src/broker/content-cache.c:424-474 | a dirty blob stays, with its bytes, until its own store is confirmed |
| `CacheRuns.HistoryKeeps` | src/broker/content-cache.c:215-253 | the accounting in every state of every run that meets guard (a), with evictions during loads and whatever load replies carry |
| `CacheRuns.NothingOrphaned` | src/broker/content-cache.c:701-702 | with guard (b) as well, no reply still to come finds its entry gone |
| `CacheRuns.StaysHonest` | src/broker/content-cache.c:192-209 | with truthful load replies, blobs are filed under their hash |
| `CacheRuns.FlushNeverForgotten` | src/broker/content-cache.c:462-473 | over any run under guard (a) in which no send fails at once, a parked flush implies a store under way |
| `CacheRuns.FlushForgotten` | src/broker/content-cache.c:462-473 | four events after which a flush is parked and no store is under way to wake it |
| `CacheRuns.ExactlyOnce` | src/broker/content-cache.c:255-264 | over any run under guard (a), requests equal answers plus parked for each requester and kind of request |
| `CacheRuns.OneRpcEach` | src/broker/content-cache.c:307-342 | with guard (b) and truthful replies, RPCs sent equal replies plus at most one outstanding for each blobref and kind |
| `CacheReplies.HeldWithoutBacking` | src/broker/content-cache.c:570-579 | in every run, after a successful store on rank 0 without a backing store, no dropcache or heartbeat takes the blob away and every load of it is answered at once with the same bytes, until a store of it is confirmed |
| `CacheTree.StepSound` | src/broker/content-cache.c:266-305 | each guarded step of the tree keeps its invariants, and a reply handler finds the entry it dereferences |
| `CacheTree.InFlightAwaited` | src/broker/content-cache.c:424-430 | a message under way is awaited by the rank that its RPC belongs to |
| `CacheTree.RunSound` | src/broker/content-cache.c:862-873 | the invariants of the tree in every state of every guarded run |
| `CacheDurability.RunKept` | src/broker/content-cache.c:405-422 | in patient runs every clean entry and every answer is true: rank 0 or the backing store has the blob |
| `CacheDurability.StaysDurable` | src/broker/content-cache.c:405-422 | once rank 0 or the backing store has a blob, one of them always will |
| `CacheDurability.StoredIsDurable` | src/broker/content-cache.c:405-422 | after a store is answered with success on any rank, rank 0 or the backing store holds the blob for ever |
| `CacheDurability.CautiousNotEarly` | src/broker/content-cache.c:389-403 | a rank above 0 that serves children only out of entries that are not dirty, a test it can make before it answers, never hands out a blob early |
| `CacheDurability.CautiousIsDurable` | src/broker/content-cache.c:405-422 | so with that test the store promise holds in every run |
| `CacheDurability.PrematureBreaks` | src/broker/content-cache.c:559-580 | whenever a rank above 0 hands a child a blob that is not yet durable, two more steps answer a store with success although the blob is not durable |
| `CacheFlushed.RunRootKept` | src/broker/content-cache.c:449-452 | in every run, patient or not, what is clean on rank 0 is in the backing store |
| `CacheFlushed.FlushedIsBacked` | src/broker/content-cache.c:742-764 | when rank 0 answers a flush with success, every blob that it holds is in the backing store |
| `CacheFlushed.FlushedIsSafe` | src/broker/content-cache.c:742-764 | then, in patient runs, every blob whose store was ever answered with success, on any rank, is in the backing store |
| `CacheFlushed.FlushedIsDurable` | src/broker/content-cache.c:742-764 | in patient runs, when any rank answers a flush with success, all that it holds is on rank 0 or in the backing store |
| `CacheLoads.StoredIsFound` | src/broker/content-cache.c:405-422 | after a successful store, when no message under way makes a rank without the blob report it missing, no load on any rank is answered ENOENT again |
| `CacheLoads.QuietIsFound` | src/broker/content-cache.c:405-422 | in particular when no load of the blobref is under way |
| `CacheLoads.HarmfulMisses` | src/broker/content-cache.c:377-387 | and whenever such a message is under way, two steps answer a new load ENOENT |
| `CacheLoads.LoadReturnsStored` | src/broker/content-cache.c:192-209 | whatever a load returns hashes to its blobref and was stored by somebody, and without collisions is the one blob stored |
| `CacheWitness.StorePromiseBroken` | src/broker/content-cache.c:416-421 | five steps after which a store has succeeded and the blob is not durable |
| `CacheWitness.LateLoadMisses` | src/broker/content-cache.c:377-387 | a load begun after a successful store is answered ENOENT, because it joined an older load |
| `CacheWitness.FailedLoadLosesBlob` | src/broker/content-cache.c:302-303 | a failed load reply takes a dirty entry away and the blob is lost |
| `CacheWitness.DropOrphansLoad` | src/broker/content-cache.c:701-702 | dropcache removes an entry whose load is in flight, and the reply will find none |
| `Topology.HopNearer` | src/broker/broker.c:1816 | every hop towards a rank brings a message nearer by exactly one |
| `Topology.SubtreeSplits` | src/broker/overlay.c:124-135 | a subtree is its root and the subtrees of the root's children |
| `Topology.WholeTree` | src/broker/overlay.c:124-135 | the subtree of rank 0 is the whole session |
| `Kary.ChildIffParent` | src/common/libutil/kary.c:17-36 | a rank is the j-th child of another for exactly one j if and only if the other is its parent |
| `Kary.TreeOfLaidOut` | src/common/libutil/kary.c:17-24 | the parent arithmetic lays out a tree with parents of lower rank |
| `Kary.LevelIsDepth` | src/common/libutil/kary.c:38-45 | the level is the depth in that tree |
| `Kary.IsChild` | src/common/libutil/kary.c:85-88 | the inner loop decides whether a rank is a child of the source |
| `Kary.ChildRoute` | src/common/libutil/kary.c:75-93 | the child whose subtree holds the destination, and none exactly when the destination is not below the source |
| `Kary.SumDescendants` | src/common/libutil/kary.c:47-58 | the number of ranks below, which is the subtree size less one |
| `Services.MatchIsFirstWord` | src/broker/service.c:206-222 | since names hold no period, a name matches a topic if and only if it is its first word |
| `Services.Switch.Add` | src/broker/service.c:145-170 | EINVAL for a period, EEXIST for a name in use, otherwise the service is registered |
| `Services.Switch.RemoveByUuid` | src/broker/service.c:120-143 | exactly the services of that uuid go |
| `Services.Switch.Lookup` | src/broker/service.c:175-222 | the one service that matches the topic, or none if there is none |
| `Routing.ResponseHop` | src/broker/broker.c:1835-1873 | a response goes to the neighbour on top of its stack, up or down, and loses that frame |
| `Routing.ResponseRetraces` | src/broker/broker.c:1835-1873 | a response retraces any trail and arrives with exactly the stack below it |
| `Routing.RequestHop` | src/broker/broker.c:1746-1768 | a request for a rank goes one hop along the tree path and leaves the hop on its stack |
| `Routing.RequestArrives` | src/broker/broker.c:1779-1833 | a request reaches the named rank in exactly the tree distance |
| `Routing.ServeReturns` | src/broker/module.c:194-284 | a service, in the broker or in a module, answers back to the sender with the original stack |
| `Routing.ServeHolds` | src/broker/module.c:194-284 | the holder of a served request is the registered provider, and only a module sees the rank on top of the hops |
| `Routing.HopsAreLinks` | src/broker/broker.c:1746-1873 | a broker sends to its parent and its children only |
| `Routing.NodeRoundTrip` | src/broker/broker.c:1779-1873 | the request reaches the provider registered on the named rank, and the answer comes back, or ENOSYS from that rank |
| `Routing.NearestIs` | src/broker/broker.c:1790-1832 | the nearest provider is the deepest rank at or above that offers the service |
| `Routing.AnyRoundTrip` | src/broker/broker.c:1790-1832 | a request to anyone is served by the provider registered on the nearest rank at or above the sender that has one, or one ENOSYS comes back from rank 0 |
| `Routing.UpstreamRoundTrip` | src/broker/broker.c:1790-1832 | an upstream request is served by the nearest provider above the sender, and on rank 0 is answered EHOSTUNREACH |
| `Routing.StrayRoundTrip` | src/broker/broker.c:1779-1833 | a request to a rank that does not exist is answered EHOSTUNREACH by rank 0 |
| `Traffic.PutTracks` | src/broker/broker.c:1510-1554 | a message put at the end of a queue, or handed to a service, is in exactly one place |
| `Traffic.NextSound` | src/broker/broker.c:1510-1639 | with first-in first-out links shared by all messages, each delivery and each answer leaves every message exactly where its own hops have brought it |
| `TrafficRuns.TripPlace` | src/broker/broker.c:1779-1873 | on its whole trip a request is never lost and never answered otherwise than by its one right answer |
| `TrafficRuns.AnswersRight` | src/broker/broker.c:1779-1873 | in any traffic an answer that is back is the right one, on the sender's rank and with its stack, and a request without answer is in a queue or with a service |
| `TrafficRuns.AllAnswered` | src/broker/broker.c:1779-1873 | when the queues are empty and no service holds a request, every request has its answer |
| `TrafficRuns.TrafficDrains` | src/broker/broker.c:1510-1639 | something can always move until all is answered, and the moves are at most the trip lengths together |
| `TrafficOrder.InOrder` | src/broker/broker.c:1779-1833 | of two requests from one rank to another the one sent first arrives first, whatever shares their links |
| `Reduce.ApplyKeeps` | src/broker/reduce.c:166-219 | the timer runs exactly while something is queued, and below a mark what is queued has not reached it |
| `Reduce.ApplyConserves` | src/broker/reduce.c:121-219 | an operation loses nothing, counts nothing twice and delivers nothing under a wrong batch |
| `Reduce.BatchConservation` | src/broker/reduce.c:121-219 | over any run, for every batch the weight appended is the weight delivered under it plus what is queued |
| `Reduce.LearnedMark` | src/broker/reduce.c:174-194 | with a mark that is learned and batches appearing in order, count and mark are the weights seen of the current and the previous batch, stragglers included |
| `Reduce.SkipUnlearns` | src/broker/reduce.c:184-191 | when a batch is skipped the learned mark is right if and only if nothing had been counted |
| `Reduce.HeldBack` | src/broker/reduce.c:180-215 | an item of the current batch is held back below the mark, or with a timeout and no mark, until the batch is flushed; otherwise all that is queued goes out with it |
| `Reduce.FlushedIffFired` | src/broker/reduce.c:121-143 | with a timeout and no mark a batch has been flushed if and only if its timer has fired |
| `Reduce.TimedOnly` | src/broker/reduce.c:180-215 | then an item of the current batch goes out as it comes if and only if the timer has fired for the batch |
| `ReduceHandle.Handle.constructor` | src/broker/reduce.c:56-94 | a new handle is empty and starts with batch 0 |
| `ReduceHandle.Handle.ReduceItems` | src/broker/hello.c:227-240 | however many items are queued, one is left, which is their sum |
| `ReduceHandle.Handle.Sink` | src/broker/hello.c:247-258 | one item is taken and added to the count, and run level 1 is set each time the count is the session size |
| `ReduceHandle.Handle.Forward` | src/broker/hello.c:264-279 | one item is taken and passed on |
| `ReduceHandle.Handle.FlushQueue` | src/broker/reduce.c:121-143 | all that is queued is delivered under the current batch and the timer stops |
| `ReduceHandle.Handle.FlushOld` | src/broker/reduce.c:147-164 | a straggler is delivered under its own batch and nothing else changes |
| `ReduceHandle.Handle.Append` | src/broker/reduce.c:166-219 | state and deliveries are those of the value model, and rank 0's count is the sum of what reached its sink |
| `ReduceHandle.Handle.TimerFires` | src/broker/reduce.c:49-54 | the timer flushes the queue |
| `HelloNode.HelloStart` | src/broker/hello.c:147-200 | the handle made from the attributes, after counting its own rank, is that of a node of the tree model |
| `HelloNode.JoinRequest` | src/broker/hello.c:204-218 | a join with a positive count of batch 0 is counted as in the tree model, and any other is refused |
| `Hello.NodeStep` | src/broker/hello.c:204-287 | all that a rank's handle has counted is queued or passed on |
| `Hello.PerformSound` | src/broker/hello.c:147-279 | an operation of a rank settles what the rank still had to count |
| `Hello.NextSound` | src/broker/hello.c:147-279 | starts, joins and timeouts keep the conservation law of the tree |
| `Hello.CompleteIsTrue` | src/broker/hello.c:142-145 | rank 0 never counts more ranks than there are, and when it has counted all, each has joined and nothing is queued or under way |
| `Hello.NextRuns` | src/broker/broker.c:748-766 | run level 1 has been set once if all have joined and not otherwise |
| `HelloRuns.HelloConserves` | src/broker/hello.c:147-279 | in every interleaving rank 0's count, all queued weight and all joins under way add up to the ranks started; completion is true and happens once |
| `HelloRuns.CountBound` | src/broker/hello.c:77-85 | no rank ever counts more than its subtree |
| `HelloRuns.NeverComplete` | src/broker/hello.c:87-112 | a rank without timeout whose mark exceeds its subtree keeps the session from ever completing |
| `HelloRuns.CompletesIff` | src/broker/hello.c:147-200 | when all have started and everything is quiet, the session is complete if and only if every rank has a timeout or a mark its subtree can reach |
| `HelloLive.StepDescends` | src/broker/hello.c:204-279 | once all have started, every join taken and every timer fired lowers the work left |
| `HelloLive.ComesToRest` | src/broker/hello.c:204-279 | so no run goes on for longer than the work left at the last start |
| `HelloLive.HelloCompletes` | src/broker/hello.c:147-279 | every run in which all have started can be continued until rank 0 has counted all and set run level 1 once, given timeouts or marks within the subtrees |
| `HelloRuns.OneJoinEach` | src/broker/hello.c:77-85 | with marks of descendants plus one and no timer firing, each rank sends at most one join, of exactly its subtree size, and rank 0's sink runs at most once, with the full size |
| `EventBroker.Publisher.Publish` | src/broker/publisher.c:133-190 | numbers are used one after the other, and one that cannot be encoded is given back |
| `EventBroker.Publisher.SendEvent` | src/broker/publisher.c:120-131 | every sender gets the event |
| `EventBroker.Publisher.SetSender` | src/broker/publisher.c:206-222 | a new sender gets the events from then on |
| `EventBroker.Broker.HandleEvent` | src/broker/broker.c:1559-1602 | what has been seen is dropped, the rest is delivered and copied to every child, and the number of lost events reported is the gap |
| `EventBroker.Broker.McastChild` | src/broker/overlay.c:330-355 | every child that has checked in gets one copy |
| `Events.NextSound` | src/broker/broker.c:1559-1602 | each step keeps every rank's deliveries contiguous and every link free of gaps |
| `Events.EventsContiguous` | src/broker/broker.c:1559-1602 | in every run rank 0 delivers 1, 2, 3 and so on, and every rank delivers consecutive numbers |
| `Events.NothingLost` | src/broker/overlay.c:330-355 | after its first event a rank misses nothing: with empty links its last event is the last published |
| `Events.NoneReportedLost` | src/broker/broker.c:1573-1580 | no broker ever reports a lost event |
| `Events.LostIsGap` | src/broker/broker.c:1573-1580 | what is reported lost is the count of numbers strictly between the last seen and the new one |
| `Events.LossAccounts` | src/broker/broker.c:1559-1602 | whatever messages reach a broker, lost, repeated or out of order, from its first event to its last each number was delivered or reported lost |
| `LogBuffer.LogBuffer.constructor` | src/broker/log.c:195-209 | a new buffer is empty |
| `LogBuffer.LogBuffer.Trim` | src/broker/log.c:112-120 | the oldest entries go until the size is met |
| `LogBuffer.LogBuffer.Clear` | src/broker/log.c:122-134 | the entries up to a number go, and -1 clears all |
| `LogBuffer.LogBuffer.Get` | src/broker/log.c:136-154 | the first entry after the cursor, or none |
| `LogBuffer.LogBuffer.SetRingSize` | src/broker/log.c:275-284 | a negative size is refused, any other trims |
| `LogBuffer.LogBuffer.Dmesg` | src/broker/log.c:553-581 | a request is answered, refused with ENOENT, or put to sleep |
| `LogBuffer.LogBuffer.Append` | src/broker/log.c:172-193 | the entry is added, the oldest trimmed, and every sleeper is given the new entry |
| `LogBuffer.LogBuffer.WakeAll` | src/broker/log.c:187-190 | the wake loop answers every sleeper once and ends |
| `LogBuffer.LogBuffer.Disconnect` | src/broker/log.c:598-630 | exactly the sleepers of the sender go, and the others keep their order |
| `LogRing.FirstIs` | src/broker/log.c:136-154 | a request gets the oldest buffered entry after its cursor |
| `LogRing.ApplyKeeps` | src/broker/log.c:112-193 | the buffer holds the last numbers given out, consecutive and at most the ring size, and whoever sleeps has seen all there is |
| `LogRing.WakeEnds` | src/broker/log.c:187-190 | one turn for each sleeper ends the loop and answers each once, with the new entry |
| `LogRing.WakeSpins` | src/broker/log.c:187-190 | a sleeper beyond the new entry keeps the loop going for any number of turns |
| `LogRing.WakeEndsIff` | src/broker/log.c:172-193 | appending ends if and only if no sleeper waits for more than the next entry |
| `LogRing.RunKeeps` | src/broker/log.c:172-193 | the ring invariant in every run; what has left the buffer does not come back |
| `LogRing.PoliteBelow` | src/broker/log.c:553-581 | when nobody asks for more than the next entry, appending always ends |
| `LogHistory.AppendLogs` | src/broker/log.c:172-193 | a new entry is in the buffer, which has grown by one unless it was full |
| `LogHistory.ResizeFits` | src/broker/log.c:275-284 | a negative size changes nothing, and any other keeps the newest entries that fit |
| `LogHistory.ClearLeaves` | src/broker/log.c:122-134 | exactly the entries after the number stay, and none after -1 |
| `LogHistory.LoggedIff` | src/broker/log.c:112-193 | in every run an entry stays in the buffer until, and only until, a clear covers it, the ring is made too small for it, or ring later entries have come |
| `LogHistory.LastOnes` | src/broker/log.c:172-193 | without clears and resizes the buffer always holds the last ring entries |
| `LogHistory.RefusedIff` | src/broker/log.c:553-581 | a request is refused, with ENOENT, if and only if it does not follow and nothing after its cursor is in the buffer |
| `LogFollower.ToldFirst` | src/broker/log.c:553-581 | an answer is the first entry after the cursor of its request, in the buffer when the request comes in or when it is woken |
| `LogFollower.FollowerAdvances` | src/broker/log.c:553-581 | a reader that feeds back its last number is told ever later entries, each as it was appended, at once or by the wake loop |
| `LogFollower.FollowerMisses` | src/broker/log.c:553-581 | such a reader misses only what was trimmed or cleared |
| `LogAnswers.WokenTold` | src/broker/log.c:187-190 | the wake loop answers each request as often as it sleeps |
| `LogAnswers.FollowedOnce` | src/broker/log.c:553-630 | over any run each request is answered once or still sleeps, unless its sender has disconnected |
| `ModuleHost.ModuleHost.LoadByPath` | src/broker/broker.c:1056-1093 | a module is loaded, registered and started, and on any failure tables are as before |
| `ModuleHost.ModuleHost.Insmod` | src/broker/broker.c:1204-1239 | the request is answered with the error or waits for the module |
| `ModuleHost.ModuleHost.LookupByName` | src/broker/module.c:667-688 | a module of that name, or none if there is none |
| `ModuleHost.ModuleHost.UnloadAsync` | src/broker/broker.c:1126-1147 | the request waits for the module, or the error is returned and nothing changes |
| `ModuleHost.ModuleHost.Rmmod` | src/broker/broker.c:1184-1198 | the request is answered with the error or waits for the module |
| `ModuleHost.ModuleHost.Unload` | src/broker/broker.c:1126-1147 | a synchronous unload removes services and module and destroys what waits |
| `ModuleHost.ModuleHost.SetStatus` | src/broker/module.c:433-443 | leaving INIT answers insmod; EXITED removes services, answers all rmmods and removes the module |
| `ModuleHost.ModuleHost.Exit` | src/broker/broker.c:1714-1723 | an exit answers all that waits, in order |
| `ModuleHost.ModuleHost.AnswerRmmods` | src/broker/broker.c:1717-1721 | the loop answers each waiting rmmod once |
| `ModuleHost.ModuleHost.AddService` | src/broker/broker.c:1381-1407 | a service goes to the module that asked, as callback argument |
| `ModuleHost.ModuleHost.RemoveService` | src/broker/broker.c:1409-1440 | only the owner removes a service |
| `Modules.NextKeeps` | src/broker/broker.c:1688-1724 | every service of a module belongs to one that is loaded, and insmod waits only during INIT |
| `Modules.ChangedAccounted` | src/broker/broker.c:1688-1724 | a status change answers each request that waited, once |
| `Modules.Lifecycle` | src/broker/broker.c:1056-1147 | in every run each insmod and rmmod is answered exactly once, waits once for a loaded module, or was dropped by a synchronous unload |
| `Modules.ExitLeavesNothing` | src/broker/broker.c:1710-1723 | after EXITED a module owns no service and nothing waits for it |
| `Modules.DroppedIff` | src/broker/module.c:311-350 | in every run nothing has been dropped if and only if no step was a synchronous unload of a module that requests waited for, and then every request is answered once or waits, and not both |
| `Modules.UnloadDropsRequest` | src/broker/broker.c:1126-1147 | a run in which the broker unloads its own module while a user's request waits for it, and the request is never answered |
| `ModuleAnswers.InsmodTold` | src/broker/broker.c:1688-1706 | in every run insmod succeeds only when its module comes out of INIT, to run or to exit without error; it fails only with the error of that exit, or at once with the errno of the cause |
| `ModuleAnswers.InsmodLoads` | src/broker/broker.c:1056-1093 | a load that has no cause to fail leaves the module in INIT as the owner of its name, with its request waiting |
| `ModuleAnswers.RmmodTold` | src/broker/broker.c:1714-1723 | in every run rmmod succeeds only when its module exits, and fails only at once, with ENOENT if no module has the name or with the error of the stop |
| `ModuleAnswers.OwnerStays` | src/broker/broker.c:1409-1440 | a service goes away if and only if its owner removes it or leaves |
| `ModuleAnswers.ServiceGained` | src/broker/broker.c:1381-1407 | a service is new if and only if its name is free and without period and a loaded module asks for it or a module of that name is loaded, which then owns it |
| `ModuleAnswers.ServiceKept` | src/broker/broker.c:1381-1440 | in every run a service stays with its owner until the owner gives it up |
| `Endpoint.StrCat` | src/broker/boot_pmi.c:66-67 | appends at the first zero within the buffer |
| `Endpoint.PutPiece` | src/broker/boot_pmi.c:55-94 | what one character adds is written within the buffer |
| `Endpoint.FormatEndpoint` | src/broker/boot_pmi.c:42-109 | returns the expansion if and only if every lookup it needs succeeds and it is shorter than 2048; no write leaves the buffer |
| `Endpoint.ExpandConcat` | src/broker/boot_pmi.c:53-102 | an endpoint expands piece by piece |
| `Endpoint.EscapeExpands` | src/broker/boot_pmi.c:81-82 | a text with its percent signs doubled expands to itself |
| `Endpoint.FlagIsParity` | src/broker/boot_pmi.c:55-94 | a percent sign escapes what follows if and only if it is not escaped itself |
| `Endpoint.EscapesMean` | src/broker/boot_pmi.c:55-94 | with any text around them, %h stands for the address, %B for the broker directory, a doubled percent sign for one, and any other escape for itself |
| `Endpoint.DanglingDropped` | src/broker/boot_pmi.c:53-102 | a percent sign at the end is dropped |

## Left out

- CacheDurability.StoredIsDurable: holds for runs that meet guards (a), (b) and patience and never unload the backing store, because without each of them it is false or, for the unload, rests on a module that is not part of this model.
- CacheDurability.PrematureBreaks: asks that the blob handed out is within the size limit of the child, which refuses a larger one.
- CacheLoads.StoredIsFound: asks that no harmful message is under way when the store is answered, because of case (c) above; CacheLoads.HarmfulMisses is the other half.
- CacheRuns.HistoryKeeps: speaks of runs in which no reply comes for an entry that was evicted while it was under way, because the handler of that reply uses freed memory.
- CacheRuns.FlushNeverForgotten: assumes that sends do not fail at once; CacheLemmas.StoreReplyKeeps has the exact exception.
- CacheReplies.HeldWithoutBacking: asks that no failed load takes a dirty entry away, because that loses the blob; CacheWitness.FailedLoadLosesBlob is such a run.
- CacheFlushed.FlushedIsSafe: holds in patient runs, because without patience a store may have been answered for a blob that rank 0 never got.
- PurgeRuns.StaysCached: speaks of heartbeats that do not go backwards and of ages below 2^32, the range of the unsigned comparison.
- LogBuffer.LogBuffer.Append: asks that no sleeper waits beyond the next entry, because the loop does not end otherwise; LogRing.WakeEndsIff proves both directions.
- ReduceHandle.Handle.Append: the reduce, sink and forward operations are those of the hello protocol, and items have a positive weight; other users of the handle are not modelled.
- Routing.NodeRoundTrip: messages are values, so copying a message before its route stack is changed is not captured; brokers do not go away while messages are under way.
- TrafficRuns.AnswersRight: a request that asks upstream for another rank than its sender's is carried but nothing is promised about it, because no broker makes one.
- Events.EventsContiguous: numbers are naturals, so the wrap-around of 32-bit event numbers is not captured, and links lose nothing.
- Kary.SumDescendants: ranks and counts are naturals, so 32-bit overflow of the layout arithmetic is not captured.
- ModuleHost.ModuleHost.LookupByName: the order of the hash is left open, so with two modules of the same name either may be found.
- Entries of the content cache are values in a map keyed by blobref; an entry that is removed while a reply will still use it is represented by its blobref among the orphans.
- In the tree of caches a send that fails at once does not report ENOENT, nor ENOSYS once the backing service is there.
- The totals of the content cache are naturals; wrap-around of `acct_size` is not captured.
- Decoding of malformed requests, JSON, base64, allocation failures and logging.
- The hash function is a parameter; collisions matter only where a statement says so.
- Changes of limits and of `content.flush-batch-count` while a broker runs.
- Sockets, reactor, threads, dlopen and timers, except that a message arrives or a timer fires at any moment.
- Event subscriptions of modules and the delivery of events to them.
- Log levels, forwarding of log entries to rank 0 and the log file.
- `attr.c`, `sequence.c`, `heartbeat.c`, `runlevel.c`, `shutdown.c`, `ping.c`, `rusage.c`, `exec.c`, `heaptrace.c` and `boot_config.c`, which would only add easy members.
