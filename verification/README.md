# cpip: verified models of its stateful components

This project models the parts of cpip whose correctness depends on state kept over time, and proves what
they promise in every run. It needs Dafny 4.11; `dafny verify dfyconfig.toml` checks all of it.

| files | component |
|---|---|
| `StableOrder`, `BuildQueue`, `QueueRuns`, `BuildWorker` | the build scheduler: a stably sorted queue with demotion on failure, and its worker |
| `ChunkDownload` | range planning and concurrent chunk writes into one preallocated file |
| `ConnectionHub`, `HubRemovals`, `HubSweeps`, `HubRounds` | the registry of device sockets, interleaving at every await: whom a removal hits, whom a heartbeat sweep judges, and that broadcasts and sweeps get round to all |
| `Protocol`, `RpcDispatch`, `Correlation` | messages, the server's dispatcher, and the pending tables of both clients |
| `LayerStore`, `LayerGaps`, `OrderedDict`, `VirtualMount` | content-addressed layers, the composition cache with and without missing layers, mounts on the import path |
| `Base64`, `Serialization` | the tagged encoding of values and its decoder |
| `OrderedDict`, `PackageCache`, `CacheRuns`, `CacheUse` | the LRU package cache: its index and the files behind it |
| `RateLimiter`, `LimiterClients` | the pruned sliding window against the full accept log, and all clients of one limiter |
| `Streaming` | reassembly of interleaved streams |
| `Retry`, `CircuitBreaker` | backoff, the reconnect delay, the breaker under overlapping calls |

Objects the program changes in place are classes whose methods are specified by functions from old state to new;
the theorems are about those functions over arbitrary sequences of operations. Where tasks interleave (downloads,
the hub, remote calls, streams, the breaker) the model is a set of atomic steps between awaits, and a run is any
sequence of enabled steps. Clocks, fresh ids, digests, the network and what handlers, compilers or functions do
are inputs, so each theorem holds for all of them.

## What the theorems assume

- Build requests and calls have unique ids; the processing and pending tables overwrite on a repeated one. The
  starvation bound needs only the waiting job's own priority to be at most 10; the documented range 1..10
  (`shared/models.py:124`) is enforced nowhere, and `WaitIsBoundedIff` says what happens without it.
- A server answers a range request with exactly the range asked for (sections 14.1.2, 14.2 and 15.3.7 of RFC 9110).
- Clocks do not run backwards where a theorem is about time (rate limiter, circuit breaker, queue order).
- Digests do not collide on the data of a run, and layer ids have the full length of a truncated digest.
- A composition names layers present at that moment; `LayerGaps.ComposeIsOverlayIff` is exact for every run without
  that, up to file/directory clashes.
- For the shape of the import path, mounted packages have distinct composed directories, none on the initial path.
  Without that, `OnPathIff` says which directories are on it after any run, `UnmountAllRestoresIff` when unmounting all
  restores it, and `UnmountBreaksSharers` what one unmount does to packages that share a directory.
- For the sliding-window bound of length `w`, no check of the client uses a window shorter than `w`, as when all share
  one; `SameCountIff` and `SameDecisionIff` are exact for any mix.
- Every connect brings a fresh socket object: the hub names connections by their sockets. (The endpoint in
  `server/app.py:179-180` passes on the socket it has just closed; it is not part of this model.)

## Where the code differs from what one would expect

- A queued job of priority above 10 can wait for ever, unless it is at the head and nothing is being processed:
  failures are demoted to 10 at most (`QueueRuns.WaitIsBoundedIff`).
- A failed send, a heartbeat sweep and the disconnect that follows the end of a socket drop the device, not the
  connection they mean: a healthy replacement is closed exactly when one was registered in between
  (`HubRemovals.FailedSendClosesAnotherIff`, `HubRemovals.SweepClosesAnotherIff`,
  `HubRemovals.DisconnectClosesAnotherIff`). A connect cancelled between accept and registration leaves its socket open
  and unknown (`ConnectionHub.CancelLosesSocket`, `ConnectionHub.NoSocketLost`).
- A composition made while a layer was missing is returned for ever, though it is wrong once the layer shows anything
  new (`LayerGaps.ComposeIsOverlayIff`).
- Layers of which one has a file where another has a directory compose to something that is not their overlay, with or
  without raising, and what was made is returned without raising from then on
  (`LayerStore.LayerManager.ComposeLayers`).
- Unmounting a package mounted from a directory of the initial path takes that directory off the path
  (`VirtualMount.UnmountAllRestoresIff`).
- A set holding a tuple cannot be decoded, and keyword arguments with a `__type__` key can be read as something else
  (`Serialization.TupleInSetRaises`, `Serialization.TagKeyIsMisread`); both come with exact conditions.
- A call that times out, or whose send raises, leaves its entry in the pending table until a reply arrives
  (`Correlation.PendingIffUnanswered`); an error reply whose error is not a table removes the entry without settling
  the future (`Correlation.FutureFollowsItsOwnEvents`).
- A check with a shorter window forgets accepts that a longer window still counts (`RateLimiterModel.ShorterWindowForgets`).
- Two cache entries that share a destination file can leave `verify_integrity` with an entry whose file is gone
  (`CacheRuns.VerifyLeavesSoundIff`; `CacheRuns.SecondDigestConflicts` reaches it by two stores).
- A colon in a package name can make two wheels share a cache key (`CacheUse.ColonsCollide`).
- With fewer than one permit a chunked download never starts (`ChunkDownload.StuckOnlyWithoutPermits`).
- The first retry sleep is not capped (`Retry.DelayIsCappedIff`); a breaker with a threshold below one acts as with
  a threshold of one, closed although its failures are not below the threshold (`CircuitBreakerModel.ReflectsIff`).

## Model

| member | source | states |
|---|---|---|
| StableOrder.StableArrangementUnique | builder/queue.py:27 | a sorted arrangement that keeps the order within every (priority, time) class is unique, so any stable sort gives this one |
| StableOrder.SortSorts | builder/queue.py:27 | the result is ordered by (priority, time) |
| StableOrder.SortKeepsClasses | builder/queue.py:27 | entries with equal keys keep their order, none lost or added |
| BuildQueueModel.BuildQueue.Push | builder/queue.py:25-27 | the new queue is the stable arrangement of the old one with the request appended |
| BuildQueueModel.BuildQueue.Pop | builder/queue.py:29-34 | hands out the head and records it as being processed; an empty queue gives nothing |
| BuildQueueModel.BuildQueue.Complete | builder/queue.py:36-37 | forgets the request; an unknown id changes nothing |
| BuildQueueModel.BuildQueue.Fail | builder/queue.py:39-43 | takes the request out of processing and puts one entry into the ordered queue, one worse in priority but no worse than 10; an unknown id changes nothing |
| BuildQueueModel.FailDemotes | builder/queue.py:39-43 | after a failure the queue is the old one with that entry spliced in, in order, and a request of priority at most 10 never comes back with a better one |
| QueueRuns.RunKeepsInv | builder/queue.py:25-43 | every legal run keeps the queue sorted and its ids apart from those in processing and those completed |
| QueueRuns.JobsConserved | builder/queue.py:25-43 | from the empty queue, every submitted job is in exactly one of queue, processing and completed, and the queue is sorted |
| QueueRuns.StepLoad | builder/queue.py:25-43 | no step but a submission raises the load ahead of a waiting job, and every pop lowers it by one, whatever fails |
| QueueRuns.NoStarvation | builder/queue.py:25-43 | a job of priority at most 10 is handed out once the pops exceed its load and the surcharges of later submissions |
| QueueRuns.NoStarvationWhenQuiet | builder/queue.py:25-43 | with nothing in processing and no submissions it is popped within 1 plus the sum of max(1, p - prio) over the entries ahead |
| QueueRuns.BoundIsTight | builder/queue.py:39-43 | some legal run spends that whole load without reaching the job |
| QueueRuns.LowPriorityStarves | builder/queue.py:42 | above priority 10, with any entry ahead, runs of any number of pops never reach the job |
| QueueRuns.JobStarves | builder/queue.py:39-43 | the same at the head as soon as anything is being processed, which a failure puts ahead |
| QueueRuns.WaitIsBoundedIff | builder/queue.py:25-43 | any queued job's wait has a bound if and only if its priority is at most 10, or it is at the head and nothing is being processed |
| BuildWorkerModel.ProcessBuild | builder/worker.py:43-68 | on every branch and exception the job is settled exactly once: completed if every stage succeeds, failed otherwise; only a cancellation leaves it in processing |
| BuildWorkerModel.Start | builder/worker.py:30-38 | the loop leaves the queue, the built jobs and the one held by a cancelled build that the polls prescribe, with submissions arriving while it sleeps or builds |
| BuildWorkerModel.BuiltIff | builder/worker.py:30-68 | over a whole run a request counts as built if and only if a free worker popped it, it compiled to a wheel, was scanned clean and was signed |
| BuildWorkerModel.HeldIff | builder/worker.py:30-68 | it is left in processing if and only if the worker was cancelled while compiling it or scanning its wheel |
| BuildWorkerModel.WorkLosesNoJob | builder/worker.py:30-68 | over a whole run every job queued or submitted meanwhile is still queued, was built, or is the cancelled one, with multiplicity; the processing table ends as it began but for that one |
| ChunkDownload.PlanChunks | virtualization/fetcher.py:65-72 | the planned ranges partition the file into contiguous pieces of at most the chunk size |
| ChunkDownload.PlanCoversOnce | virtualization/fetcher.py:65-72 | every byte lies in exactly one planned range |
| ChunkDownload.ConcurrencyIsBounded | virtualization/fetcher.py:74-93 | at most `max_concurrent` fetches are between acquiring and releasing the semaphore, in every run |
| ChunkDownload.StuckOnlyWithoutPermits | virtualization/fetcher.py:74-93 | a run that cannot go on has done every chunk or seen its request fail, unless there are no permits at all |
| ChunkDownload.FileIsRemote | virtualization/fetcher.py:60-93 | when all chunks are done, in any order, the file equals the remote bytes and `downloaded` has risen strictly to the total |
| ChunkDownload.DownloadIsVerified | virtualization/fetcher.py:25-43 | the finished download is kept exactly when its digest is the expected one |
| ConnectionHub.NextKeepsInv | server/ws/hub.py:47-197 | every step of connect, cancelled connect, disconnect, send, broadcast and sweep keeps the registry's invariant |
| ConnectionHub.NoSocketLost | server/ws/hub.py:47-101 | under every interleaving an accepted socket awaits registration, is in the map under its own device, or has had close begun, if and only if its connect was not cancelled |
| ConnectionHub.SweepRemovesWhatItJudges | server/ws/hub.py:161-197 | each connection a sweep finds unheard for more than three intervals, or cannot send to, is out of the map and closed when that sweep ends |
| ConnectionHub.BuriedStaysOut | server/ws/hub.py:161-197 | such a connection never comes back |
| ConnectionHub.LockHolderCanMove | server/ws/hub.py:65-101 | one task at most holds the lock, and it can always proceed |
| ConnectionHub.NoDeadlock | server/ws/hub.py:47-197 | in every reachable state with tasks under way, one of them can go on |
| ConnectionHub.CancelLosesSocket | server/ws/hub.py:53-83 | a connect cancelled anywhere past its accept leaves a socket that is neither registered nor closed and that nobody is about to handle; the lock is given back |
| HubRemovals.DropClosesAnotherIff | server/ws/hub.py:85-101 | a removal closes another connection than the one meant if and only if the device has another by then |
| HubRemovals.SendTakesRegistered | server/ws/hub.py:109-115 | a send begins on the connection its device has at that moment |
| HubRemovals.FailedSendClosesAnotherIff | server/ws/hub.py:103-124 | in any run, the removal after a failed send closes another connection if and only if one was registered for the device since the send took its own, and not dropped again |
| HubRemovals.SweepClosesAnotherIff | server/ws/hub.py:170-197 | in any run, a sweep that finds a connection unheard for more than three intervals, or cannot send to it, removes its device before it ends, and closes another connection there if and only if one was registered since the lookup, and not dropped again |
| HubRemovals.DisconnectClosesAnotherIff | server/ws/hub.py:85-101 | in any run, a disconnect meant for the connection a device has closes another if and only if one was registered since, and not dropped again |
| HubRemovals.FailedSendDropsReplacement | server/ws/hub.py:103-124 | from any state with a send under way, reconnecting before it fails leads to the removal of the healthy replacement |
| HubRemovals.SweepDropsReplacement | server/ws/hub.py:170-197 | the same for a sweep whose last heartbeat is under way |
| HubSweeps.ScanJudgesIff | server/ws/hub.py:175-192 | looking at a device, a sweep sends its connection a heartbeat and lists nothing if and only if it was heard within three intervals of the sweep's start; otherwise the device is listed |
| HubSweeps.BeatIsLastHeard | server/ws/hub.py:28-83 | the time the hub has for a connection is that of its accept or its latest heartbeat in the run |
| HubSweeps.SweepJudgesIff | server/ws/hub.py:161-197 | in every run, a sweep judges a connection if and only if it looks at it when its last accept or heartbeat is more than three intervals before the sweep's start, or its heartbeat to it fails |
| HubSweeps.SweepListsIff | server/ws/hub.py:170-192 | a device is on the sweep's list if and only if one of its connections is so judged |
| HubSweeps.SweepSparesHealthy | server/ws/hub.py:161-197 | a connection heard within three intervals, whose heartbeat does not fail, is not judged |
| HubRounds.SendNextFindsFirst | server/ws/hub.py:126-140 | sending to a list begins on the first device with a connection, with those after it still to come, and is over if none has |
| HubRounds.BroadcastReachesAll | server/ws/hub.py:126-148 | a broadcast that ends has begun to send to every device on its list or found it without a connection, whatever happened meanwhile |
| HubRounds.PingOutcome | server/ws/hub.py:187-192 | a heartbeat that fails lists its device, one that goes well changes nothing, and the sweep goes on with the rest |
| HubRounds.SweepLooksAtAll | server/ws/hub.py:170-197 | a sweep that ends has looked at every device there was when it began |
| Protocol.RPCMessage.constructor | shared/protocol.py:72-89 | an empty id, parameter table or metadata is replaced; everything else is kept |
| Protocol.RPCMessage.ToDict | shared/protocol.py:91-109 | the dictionary filled step by step is the message's dictionary form |
| Protocol.TypeOfIff | shared/protocol.py:26-50 | texts and message types correspond one to one |
| Protocol.TypeIsNamed | shared/protocol.py:26-50 | each of the fourteen types is read from its own text, and from no other |
| Protocol.EncodedHolds | shared/protocol.py:91-109 | the version, type, id and time are always on the wire, every other field exactly when it is not empty, and nothing else |
| Protocol.RoundTrips | shared/protocol.py:91-132 | writing and reading keeps every field but the time, with an empty method or error read as none |
| Protocol.RoundTripIsExactIff | shared/protocol.py:91-132 | the round trip is exact if and only if the message has no empty method or error |
| Protocol.ReadingFailsIff | shared/protocol.py:121-132 | reading fails exactly on a type that is no known text, and anything read is well constructed |
| RpcDispatch.RPCDispatcher.Register | server/ws/rpc.py:27-28 | the method gets that handler, no other changes |
| RpcDispatch.RPCDispatcher.Dispatch | server/ws/rpc.py:30-49 | produces the response of the dispatch table, or lets the lookup's exception escape |
| RpcDispatch.ResponseAnswersCall | server/ws/rpc.py:30-49 | the response has the call's id and exactly one of result and error; it is a result if and only if a handler returned it, and an error names the missing method or carries what the handler threw |
| RpcDispatch.ResponseSurvivesWire | server/ws/rpc.py:30-49 | the caller reads back the same id, result and error |
| RpcDispatch.IdIsEchoedIff | server/ws/rpc.py:30-49 | the caller's own id comes back exactly when it is not empty |
| Correlation.CpipDaemon.RpcCall | client/daemon.py:150-161 | refuses without a connection; otherwise registers the future and then sends, leaving the entry if the send raises |
| Correlation.CpipDaemon.HandleMessage | client/daemon.py:96-116 | a reply removes its entry and settles a waiting future; heartbeats and calls are answered when connected, unless the handler or the send raises |
| Correlation.CloudSession.AsyncExecute | runtime/interceptor.py:111-139 | registers the call even when there is no socket; sends the encoded arguments when there is one |
| Correlation.CloudSession.OnMessage | runtime/interceptor.py:74-92 | a reply removes its entry and settles a waiting future, any other message changes nothing |
| Correlation.ExecCallArrives | runtime/interceptor.py:117-127 | the far end reads the call with its id, session and function, the positional arguments as they round-trip, and the keyword arguments, each in its own place |
| Correlation.CallerLearnsOutcome | server/ws/rpc.py:30-49 | the dispatcher's reply, once read, settles the future with what the handler returned, the message of what it threw, or the unknown method's name |
| Correlation.ErrorWithoutMessage | client/daemon.py:106-110 | what each client puts for an error without a message, and for no error at all |
| Correlation.SettledStays | client/daemon.py:102-110 | a settled future is never settled again, in any run |
| Correlation.FutureFollowsItsOwnEvents | client/daemon.py:96-161 | after any run a call's future is what its own first reply or timeout made it, whatever else arrived |
| Correlation.PendingIffUnanswered | runtime/interceptor.py:74-139 | an entry leaves the table exactly when a reply with its id arrives; a timeout leaves it behind |
| Correlation.SettledOnceByItsOwnReply | client/daemon.py:102-110 | in the system with channel and server a future changes once, by its own timeout or by a reply carrying its id |
| Correlation.CorrelationIsSound | client/daemon.py:96-161 | in every run with lost, repeated, late and foreign messages the table is the issued ids not yet answered, a delivered result is one a handler returned for that very call, and a failure carries what a handler threw for it or names its unknown method |
| Correlation.OnlyRepliesCount | client/daemon.py:96-116 | nothing but a result or an error with a known id touches the table or a future |
| Correlation.CallComesBack | client/daemon.py:150-161 | in any state of the system a call under a fresh id that is sent, answered and delivered settles its future with the handler's outcome and leaves the table |
| Correlation.LateReplyIsDropped | runtime/interceptor.py:74-139 | after a timeout a late reply takes the entry off the table and changes no future |
| LayerStore.JoinInjective | virtualization/layers.py:80-84 | the ":" join tells lists of full-length ids apart |
| LayerStore.LayerManager.StoreLayer | virtualization/layers.py:59-78 | the layer is stored under its digest unless it is already there |
| LayerStore.LayerManager.CopyLayer | virtualization/layers.py:86-97 | in whatever order files are copied, the result is the overlay if and only if nothing is a file in one tree and a directory in the other; the copy raises only if something is |
| LayerStore.LayerManager.ComposeLayers | virtualization/layers.py:80-98 | an existing composition is returned as it is, without raising; what is newly made is the overlay of the present layers if and only if they do not clash |
| LayerStore.LayerManager.CleanupUnused | virtualization/layers.py:100-109 | keeps exactly the layers in use, with their trees, counts the others, and leaves compositions alone |
| LayerStore.LayerStaysIff | virtualization/layers.py:59-109 | in every run a layer is there if and only if it was there, or was stored, and every cleanup since named it; one that stays has its old tree |
| LayerStore.StoredLayerStays | virtualization/layers.py:59-109 | a stored layer that every cleanup names keeps the tree unpacked from its data, or the one it already had |
| LayerStore.LeftOutIsGone | virtualization/layers.py:100-109 | one left out of a cleanup is gone until its data is stored again |
| LayerStore.ComposedStays | virtualization/layers.py:80-109 | a composed directory never changes once made |
| LayerStore.RunKeepsInv | virtualization/layers.py:59-109 | every composed directory stays the overlay of the layers it was made from, over every run |
| LayerStore.ComposeIsOverlay | virtualization/layers.py:59-109 | the directory returned, cached or fresh, equals the left-to-right overlay, even after cleanup and storing again |
| LayerGaps.StillOverlayIff | virtualization/layers.py:86-98 | a directory made with layers missing is the overlay of all of them if and only if every file the missing ones show was already there, with that content, from the layers before |
| LayerGaps.ComposeIsOverlayIff | virtualization/layers.py:59-109 | in every run, with whatever missing, the directory returned is the overlay of the layers there when it was first made, and that of the layers there now under that condition exactly |
| LayerStore.MissingLayerPoisons | virtualization/layers.py:86-92 | for a single layer: composed while missing it stays an empty directory, wrong unless the layer holds no file |
| VirtualMount.VirtualMount.Mount | virtualization/mount.py:24-33 | a mounted package returns its directory again; a new one is composed and put first on the path |
| VirtualMount.VirtualMount.Unmount | virtualization/mount.py:35-43 | takes the package's directory off the path and its modules out of the module table |
| VirtualMount.BelongsToIff | virtualization/mount.py:40-42 | the modules that go are the package and what a dot separates from it; a look-alike name stays |
| VirtualMount.VirtualMount.UnmountAll | virtualization/mount.py:51-53 | unmounts every package, in mounting order, and takes the modules of all of them out of the module table |
| VirtualMount.PathIsMountStack | virtualization/mount.py:24-43 | in every run the path is the mounted directories newest first, then the initial path |
| VirtualMount.UnmountAllRestoresIff | virtualization/mount.py:24-53 | in every run, whatever directories packages share, unmounting all restores the initial path if and only if no package was newly mounted from a directory on it |
| VirtualMount.UnmountBreaksSharers | virtualization/mount.py:35-43 | after an unmount the others stay importable if and only if none shares the directory or the path has it more than once |
| VirtualMount.OnPathIff | virtualization/mount.py:24-43 | in any run from any path, a directory is on the path exactly when it was there, or a mount put or found it there, more often than packages were unmounted from it since |
| VirtualMount.OwnDirOnPathIff | virtualization/mount.py:24-43 | a directory outside the initial path is on the path exactly when a package was newly mounted from it and none unmounted from it since |
| Base64.DecodeEncode | runtime/serialization.py:48-49 | decoding the base64 text of any bytes gives the bytes back (section 4 of RFC 4648) |
| Base64.TestVectors | runtime/serialization.py:48-49 | the encoder meets the test vectors of section 10 of RFC 4648 for one, two and three bytes |
| Serialization.RoundTrip | runtime/serialization.py:36-101 | decoding an encoded value gives it back with tuples as lists, whatever keys its dictionaries have, if no set in it holds a tuple, and raises otherwise |
| Serialization.ExactRoundTripIff | runtime/serialization.py:36-101 | the very same value comes back if and only if it holds no tuple |
| Serialization.ArgsRoundTrip | runtime/serialization.py:23-33 | the same for every argument list and every argument that is no dictionary |
| Serialization.KwargsRoundTripIff | runtime/serialization.py:23-33 | keyword arguments come back exactly under a condition on the dictionary and, where its tag leads to a foreign decoder, on what that does |
| Serialization.TagReads | runtime/serialization.py:74-115 | what every other tag reads of a table that no encoder wrote, when it raises, and that an unknown tag hands the table back |
| Serialization.ListTagIterates | runtime/serialization.py:76-78 | a list tag iterates over the characters of a text, the keys of a table, nothing of nothing, and raises on anything else |
| Serialization.TagKeyIsMisread | runtime/serialization.py:76-81 | a dictionary with a `__type__` key can come back as an empty list |
| Serialization.EqualIff | runtime/serialization.py:99-101 | members of a set are equal as in Python: numbers by worth whatever their types, tuples item by item, all else only to itself |
| Serialization.DecodedSetIsSet | runtime/serialization.py:99-101 | whatever list of items is decoded to a set, it has no two equal members and an equal of every item, each of them hashable |
| Serialization.TupleInSetRaises | runtime/serialization.py:99-101 | decoding a set that held a tuple raises |
| PackageCache.CacheManager.CurrentSize | client/cache.py:221-226 | the loop's total is the sum of the recorded sizes |
| PackageCache.CacheManager.MaybeEvict | client/cache.py:228-249 | the loop evicts least recently used entries, with their files, until the threshold is met |
| PackageCache.CacheManager.GetWheel | client/cache.py:103-126 | a path is returned only if its file's hash is the recorded one; a failed check removes the entry |
| PackageCache.CacheManager.GetLayer | client/cache.py:155-170 | a path is returned only if it exists; otherwise the entry is removed |
| PackageCache.CacheManager.StoreWheel | client/cache.py:128-153 | evicts, then copies to the destination named by the file name alone and records it |
| PackageCache.CacheManager.StoreLayer | client/cache.py:172-193 | evicts, then replaces the layer directory and records it |
| PackageCache.CacheManager.VerifyIntegrity | client/cache.py:289-306 | drops and counts the entries whose file is gone or wrong, in index order |
| CacheRuns.EvictionMeetsLimit | client/cache.py:228-249 | the recorded total ends at or below nine tenths of the maximum |
| CacheRuns.EvictsNothingIff | client/cache.py:228-249 | nothing is evicted if and only if the recorded total is within nine tenths of the maximum or the index is empty |
| CacheRuns.EvictionConserves | client/cache.py:228-249 | every entry is kept or evicted, none twice, and no recorded size is lost |
| CacheRuns.EvictionRemovesVictimFiles | client/cache.py:236-249 | exactly the files of evicted entries are removed |
| CacheRuns.EvictionIsLru | client/cache.py:236-249 | no evicted entry was used after a kept one |
| CacheRuns.EvictionIsMinimal | client/cache.py:228-249 | with the last victim back, the total would exceed nine tenths of the maximum |
| CacheRuns.RecordedSizeIsBounded | client/cache.py:103-249 | from an empty index, over every run, the recorded total is at most nine tenths of the maximum plus the entry stored last |
| CacheRuns.RunKeepsUnique | client/cache.py:103-306 | in every run no key is repeated, and one that is gone comes back only by a store |
| CacheRuns.MissStaysMiss | client/cache.py:103-126 | after a miss every lookup misses, whatever happens to index and files, until something is stored under the key |
| CacheRuns.StoredWheelIsFoundIff | client/cache.py:103-153 | a stored wheel is found again, with the source's content, if and only if the digest it came with is empty or its own |
| CacheRuns.SharedNameIsServedIff | client/cache.py:132-136 | a wheel whose file name another store reuses is served again if and only if the new content has its recorded digest |
| CacheRuns.FileSurvivesIff | client/cache.py:289-306 | a file survives verification if and only if no entry naming it is corrupt |
| CacheRuns.EntrySurvivesIff | client/cache.py:289-306 | an entry survives if and only if it is sound and no earlier entry took its file |
| CacheRuns.VerifyLeavesSoundIff | client/cache.py:289-306 | afterwards every entry exists and matches, if and only if no two entries conflict over a file; always with distinct paths |
| CacheRuns.SecondDigestConflicts | client/cache.py:128-153 | storing one wheel for two packages, the second time with a wrong digest, reaches such a conflict |
| CacheUse.KeysApart | client/cache.py:97-99 | wheels of different packages or versions have different keys unless a package name has a colon in it; wheels and layers never share one |
| CacheUse.ColonsCollide | client/cache.py:97-99 | with a colon in a name, two packages can |
| CacheUse.WheelHitIff | client/cache.py:103-126 | a wheel is found if and only if its file is there with the recorded digest, and then only its access time changes, in its place |
| CacheUse.LayerHitIff | client/cache.py:155-170 | the same for a layer, found if and only if it is there |
| CacheUse.FoundIsEvictedLast | client/cache.py:123-249 | an entry found at the latest time so far is evicted by the next eviction only if every entry is |
| CacheUse.BaseNameIsLast | client/cache.py:132-133 | the destination's name is what follows the source's last slash |
| CacheUse.StoredWheelIsRecorded | client/cache.py:128-153 | a wheel is recorded under its own file name with the digest given or else its own, its size and the time, and no other entry changes |
| CacheUse.StoredLayerIsRecorded | client/cache.py:172-193 | the same for a layer, with what happens to an old destination and a missing source |
| RateLimiterModel.RateLimiter.Check | server/auth/rate_limiter.py:34-46 | prunes the client's list and appends the accept, or refuses; other clients are untouched |
| RateLimiterModel.RateLimiter.Remaining | server/auth/rate_limiter.py:48-53 | what is left of the limit, positive exactly when a check at that instant would accept |
| RateLimiterModel.SameCountIff | server/auth/rate_limiter.py:34-53 | for any mix of windows the pruned list counts the full log less what earlier queries pruned with their windows, and the same if and only if they pruned nothing in the window |
| RateLimiterModel.SameDecisionIff | server/auth/rate_limiter.py:34-46 | the decision differs from the full log's if and only if what was pruned brings the count from the limit or above to below it |
| RateLimiterModel.RefinesFullLog | server/auth/rate_limiter.py:34-53 | when no earlier check used a shorter window, the count and so the decision is that of the full log |
| RateLimiterModel.ShorterWindowForgets | server/auth/rate_limiter.py:37-40 | two windows of different length give a decision the full log would not |
| RateLimiterModel.SlidingWindowBound | server/auth/rate_limiter.py:34-46 | when no check uses a window shorter than w, every half-open interval of length w holds at most the largest limit used |
| RateLimiterModel.AcceptStaysWithinItsLimit | server/auth/rate_limiter.py:34-46 | an accept leaves at most its own limit of accepts in the window behind it |
| LimiterClients.ClientsAreSeparate | server/auth/rate_limiter.py:34-46 | however clients' checks interleave, the object keeps for each the list its own checks alone would give, and accepts what they alone would |
| LimiterClients.ClientIsLimited | server/auth/rate_limiter.py:34-46 | no client gets more accepts in an interval of length w than its largest limit, if its windows are no shorter |
| LimiterClients.ClientIsAnsweredIff | server/auth/rate_limiter.py:34-46 | a client's check is accepted if and only if it has been given fewer accepts than the limit in the window that ends now, when its earlier windows were no shorter |
| Streaming.StreamReceiver.OnChunk | runtime/streaming.py:30-33 | the list is padded to the index and the place set; a negative index counts from the end or raises |
| Streaming.ChunkIsPlaced | runtime/streaming.py:30-33 | for every kind of index in a chunk's metadata: which place is set, how far the list is padded, and whether it raises |
| Streaming.StreamManager.CreateStream | runtime/streaming.py:68-71 | a fresh receiver takes over the id |
| Streaming.StreamManager.HandleMessage | runtime/streaming.py:73-83 | only the addressed receiver changes; an end message detaches it; misplaced chunks raise, a fractional index after padding |
| Streaming.StreamSeesOnlyItsOwn | runtime/streaming.py:68-83 | in any interleaving a receiver holds what its own messages up to the end say, and nothing changes it afterwards |
| Streaming.SlotsHoldTheLast | runtime/streaming.py:30-33 | every place up to the largest index holds the last data sent for it, or None |
| Streaming.StreamReassembles | runtime/streaming.py:30-83 | any order and repetition of a sequence's chunks, among other streams, gives exactly that sequence |
| Streaming.SentStreamReassembles | shared/protocol.py:197-218 | the same from end to end: numbered chunks made for a call, written and read back, give the data, complete exactly when the end has arrived |
| Streaming.StreamAssembles | runtime/streaming.py:50-60 | a finished stream assembles to its pieces joined in order for text and bytes, to the single value or the list of values otherwise, whatever order they came in |
| Streaming.ConcatJoins | runtime/streaming.py:53-56 | joining keeps every piece in order |
| Retry.RetryAsync | runtime/fallback.py:52-75 | calls up to the first success or fatal error, at most max_retries + 1 times, sleeping the delays in order, and ends as the last call did |
| Retry.DelayIsCappedIff | runtime/fallback.py:59-73 | the iterated delay is min(base * factor^k, max) for every k, if and only if the base is within the cap |
| Retry.RetriesAreBounded | runtime/fallback.py:52-75 | all calls are made exactly when all fail retryably, and the total sleep is at most max_retries times the cap |
| Retry.ConnectionLoop | client/daemon.py:63-94 | each reconnect sleep is min(2^k, 60) in the failures k since the last connection |
| Retry.SleepIsDoubled | client/daemon.py:63-94 | a turn adds a sleep if and only if it fails without a stop: one second doubled for each failure since the last connection, at most a minute |
| CircuitBreakerModel.CircuitBreaker.IsOpen | runtime/fallback.py:88-95 | turns away exactly while open and within the timeout, else half-opens |
| CircuitBreakerModel.CircuitBreaker.Call | runtime/fallback.py:107-119 | turned away without a call, or called and recorded |
| CircuitBreakerModel.RunReflects | runtime/fallback.py:81-119 | over any interleaving the breaker holds what its history says: failures since the last success, the latest failure, closed exactly below the threshold |
| CircuitBreakerModel.AdmissionFollowsHistory | runtime/fallback.py:81-119 | a call is let in if and only if the failures are below the threshold or the timeout has passed since the latest |
| CircuitBreakerModel.StateFollowsHistory | runtime/fallback.py:81-119 | closed below the threshold, else half-open once a call has asked more than the timeout after the latest failure, and open until then |
| CircuitBreakerModel.FailedProbeReopens | runtime/fallback.py:101-119 | one failed probe reopens, and the next call waits the whole timeout from it |
| CircuitBreakerModel.LowThresholdActsAsOne | runtime/fallback.py:101-105 | over every history a threshold below one behaves as a threshold of one |
| CircuitBreakerModel.ReflectsIff | runtime/fallback.py:81-119 | after a history the breaker is closed exactly below its threshold if and only if the threshold is at least one or the history ends in failures |

## Left out

- BuildQueueModel.BuildQueue.Fail: a request is a value here, so a caller that keeps the object does not see its priority change.
- ConnectionHub.NextKeepsInv: cancellation of a disconnect, a send or a sweep; only connects are cancelled here.
- LayerStore.LayerManager.StoreLayer: an archive that cannot be unpacked; every blob has a tree here.
- LayerStore.LayerManager.ComposeLayers: which files are left after a file/directory clash; only that they are not the overlay.
- PackageCache.CacheManager.StoreWheel: a destination that is a directory; the index file on disk, `clear`, the metadata files and `stats`.
- Base64.DecodeEncode: text that no encoder writes, such as stray characters, which the library decoder skips.
- Serialization.RoundTrip: floats are reals, without NaN, infinities or overflow; dictionary keys are strings; a set lists its members in iteration order, and results are to be read up to that order.
- Serialization.KwargsRoundTripIff: the decoders of numpy arrays, tensors and pickles are parameters here; values sent by `repr` or pickle are not encoded.
- Protocol.RoundTrips: the JSON and msgpack texts below the dictionaries.
- Correlation.CpipDaemon.HandleMessage: what the daemon's own handlers do; how they end is an input.
- Correlation.CloudSession.AsyncExecute: threads and event loops; connecting is an input.
- Streaming.StreamAssembles: chunks that are raw bytes, the wait's timeout and errors set from outside.
- Retry.RetryAsync: exceptions are already sorted into retryable and fatal; `FallbackChain`, a plain first-success loop, is left out.
- CacheRuns.RecordedSizeIsBounded: sizes are exact integers, where the program compares floats of megabytes.
- ChunkDownload.FileIsRemote: tasks, file and counters are a value that each step replaces, as for the hub and the channel of remote calls; what a task keeps in local variables is its step's state.
- `_simple_download`, which checks no hash, and the return values and counts of the hub's send and broadcast.
- Build retries are not bounded: `BUILD_MAX_RETRIES` (`shared/constants.py:63`) is used nowhere in the queue.
- The WebSocket endpoint, sessions and services of the server, the installer, resolver, sync, doctor and command line, configuration, signing, scanning, tokens, containers and user interfaces: thin wrappers around libraries or maps.
