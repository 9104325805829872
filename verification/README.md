# FT-Cache in Dafny

FT-Cache intercepts the file calls of a training process and serves them from cache servers. A file belongs to
server `hash(path) % N`; that server opens the file on the parallel file system (PFS), or the copy of it that its
data mover has put on NVMe, and returns the bytes. When a server does not answer in time, the client counts a
timeout and falls back to its local descriptor; after `TIMEOUT_LIMIT` timeouts it leaves the server alone. A
separate simulator studies a consistent-hash ring for spreading the files.

The project models the four parts and proves what they promise.

- `PlainFile`: an immutable file with a cursor, the specification of everything else.
- `Server`, `ServerProgress`: one server. The handlers for open, read and seek are one step each, since a single
  progress thread runs them (src/ftc_comm.cpp:143, src/ftc_comm.cpp:166-181). The close handler and the data mover
  are cut at every lock, wait and signal.
- `Client`, `FaultDetector`, `LocalLife`: one client process with any number of threads, cut at the limit check,
  the send, the reply and the wake-up or timeout.
- `System`, `ClientTables`, `Ownership`, `Transparency`, `RunFacts`: all clients and servers with the messages
  between them, which may be delayed without bound, overtake each other or get lost; servers may crash.
- `CursorRefinement`, `CursorInvariants`, `CursorSteps`: for any set of descriptors, the system refines plain files
  with one cursor each as long as nothing happens to these descriptors that breaks their cursors; a forward simulation
  over every event. `FaultFree` shows that this covers all descriptors of all polite runs without faults.
- `SequentialReads`, `Seeks`: what each of the excluded happenings does to reads and seeks, exactly.
- `Counterexamples`: runs that show where the code is not transparent.
- `CacheServer`, `CacheClient`: the two processes as classes with the fields and branches of the code; each method
  is proved to do what the steps of the model do.
- `AddressBook`: the registry file of server addresses and the client's cache in front of it.
- `HashRing`, `Redistribution`: the ring as a class over a sorted sequence of points, and the failure experiment.

The system theorems are about disciplined runs (`System.Disciplined`, for a set `w` of descriptors). The discipline has
three clauses: calls are polite (a descriptor is used while it is open, and not closed while in use); a close, and any
call on a descriptor in `w`, goes to a running server only after the reply to the descriptor's own open has arrived; and
a descriptor is not closed while that reply can still come. In runs without faults politeness alone implies the others
(`FaultFree.FaultlessRunIsSound`). With faults an application cannot see whether its open was answered or timed out, so
it cannot keep the last two by itself. What breaks without each clause, the others being kept, is shown by
`RacingCloseMisreads`, `UnacknowledgedReadMisreads`, `UnacknowledgedCloseMisreads` and `LateReplyMisreads`.

The theorems further assume that PFS files do not change, that `mkdtemp` gives a directory nothing lies in, that a copy
that completes equals its source, and that every tracked descriptor is closed through the wrapped `close` (`fopen` tracks
its descriptor like `open`, but `fclose` is not wrapped).

Where a claim is false of the code, the failing input is given and the condition under which it holds.

- A positioned read is transparent at every offset but -1, which travels as a sequential read: `TransparentIff`.
- Sequential reads and seeks of a descriptor agree with a plain file as long as the run is sound for it
  (`CursorRefinement.Sound`): none of its reads falls back to a local cursor that is not its only one; nobody else's
  request moves its server descriptor, and its own ones are not retried on the client's number; its open did not fail on
  the server; its seek offsets fit 32 bits and its positioned reads are not at -1; and its process seeks one at a time.
  All other faults are allowed, to the descriptor itself as well: positioned reads that time out or fail, lost messages,
  crashes. Each of these conditions has a disciplined run that shows the need and a theorem that says exactly what breaks.
  - Fallback (`SequentialReadRepeats`): the read returns the plain bytes, whatever its size, exactly when the local cursor
    is the plain one or both are at or past the end (`FallbackIff`); the next read agrees exactly when this one had nothing
    to return (`AfterFallbackIff`), until its request is handled after all (`AfterLateHandling`).
  - Others' requests (`StaleReadSkips`): they come from callers that gave up or from retries (`UnsoundIsStray`);
    the next read agrees exactly when the request left the cursor in place or past the end (`AfterStrayIff`,
    `StrayReadIff`).
  - Retry (`RetryMisreads`): the read agrees exactly when the same bytes are left in both files (`RetriedIff`).
  - Failed open (`ReadAfterFailedOpenKillsServer`, `SeekAfterFailedOpenFails`): a read is retried or kills the server
    (`NothingToRead`), a seek agrees exactly when the plain one fails (`FailedOpenSeekIff`).
  - Wide seek (`WideSeekMisplaces`): the cursor moves as the plain one, whatever the state, exactly when the offset fits
    32 bits (`OffsetTravelsIff`, `SeekCursorIff`); the reply is the plain position exactly when that is below 2^31
    (`SeekReplyIff`).
  - Overlapping seeks (`OverlappingSeeksHang`): one at a time, each reply wakes its own thread with its own position
    (`ReplyWakesItsThread`); any two in flight can be handled and answered so that neither thread ever wakes
    (`OverlappingSeeksBlock`, `BlockedStays`).
- The close assertion fails exactly for a negative descriptor, which is the -1 of an open that failed on that server:
  `CloseAssertionIff`, with a run that gets there, `FailedOpenKillsServer`.
- Moving only the failed server's files is recomputation exactly when every erased point of another server is followed
  by a surviving point of that same server: `IncrementalIff`. The simulator's own fleet misses it without any hash
  collision: `SharedPointBreaksIncremental`.
- Without hash collisions the points of a fleet are disjoint exactly up to ten replicas or ten servers:
  `FleetDisjointIff`.

The repository's own README gives 3 as the timeout in seconds, the code has 5; no theorem depends on it.

## Model

| member | source | states |
|---|---|---|
| Transparency.PreadTransparency | src/wrappers.c:248-274 | In every reachable state of every run that is disciplined for a descriptor, whatever is delayed, lost, timed out, crashed, failed by a device or cached meanwhile, a finished positioned read of it at an offset other than -1 returned exactly the bytes of its PFS file; reads and seeks on other descriptors may be sent unacknowledged; a negative offset fails, any other gives min(count, what is left from the offset) bytes, each the file's byte at its position. |
| Counterexamples.TransparentIff | src/ftc_comm.cpp:344-368 | Positioned reads at an offset are transparent in all runs disciplined for their descriptor if and only if the offset is not -1. |
| Counterexamples.PreadAtMinusOne | src/ftc_comm.cpp:344-354 | A disciplined run in which a positioned read at -1 returns data where the real call fails. |
| Counterexamples.SequentialReadRepeats | src/wrappers.c:205-228 | A disciplined run in which a read falls back to the local descriptor and the next one, served remotely, returns the same byte again. |
| Counterexamples.RetryMisreads | src/ftc_comm.cpp:346-348 | A disciplined run without any fallback in which the handler's second attempt returns another file's byte and moves a cursor nobody read. |
| Counterexamples.StaleReadSkips | src/ftc_comm.cpp:344-345 | A disciplined run in which a request that had timed out is handled after its descriptor number was issued again, and the new descriptor's first read misses a byte. |
| SequentialReads.FallbackReturns | src/wrappers.c:215-225 | A read that is refused, untracked, timed out or answered with a failure returns what lies at the local cursor and moves that one. |
| SequentialReads.FallbackIff | src/wrappers.c:215-225 | From related states a falling-back read returns the plain file's bytes for every size if and only if the local cursor is the plain one or both are at or past the end. |
| SequentialReads.LocalReadsAgree | src/wrappers.c:215-225 | The reads of a descriptor without a server descriptor may fall back: they return the plain file's bytes. |
| SequentialReads.AfterFallbackIff | src/wrappers.c:215-225 | After the event with which a read fell back, its request not having been handled, the server's next answers are the plain file's for every size if and only if that read had no bytes to return. |
| SequentialReads.AfterLateHandling | src/ftc_comm.cpp:344-345 | After that event and the late handling of its request, the server's answers are the plain file's again. |
| SequentialReads.AfterStrayIff | src/ftc_comm.cpp:344-345 | After the server handled a read or seek that moves the descriptor but is not the one its owner waits for, its next answers are the plain file's for every size if and only if the cursor stayed or stayed past the end. |
| SequentialReads.StrayReadIff | src/ftc_comm.cpp:344-345 | A stray read leaves it so if and only if it had no bytes to return. |
| SequentialReads.RetriedReturns | src/ftc_comm.cpp:346-348 | The second attempt answers from the descriptor with the client's number and moves that one. |
| SequentialReads.RetriedIff | src/ftc_comm.cpp:346-348 | The replies of the second attempt are the plain file's for every size if and only if the same bytes are left in both files, also after a failed open. |
| SequentialReads.NothingToRead | src/ftc_comm.cpp:344-384 | A sequential read that carries no open descriptor leaves the server running if and only if it is retried. |
| Seeks.OffsetTravelsIff | src/ftc_client.cpp:233-250 | The server's seek by the cut offset moves the cursor as the plain seek does, for every file, cursor and whence, if and only if the offset fits 32 bits. |
| Seeks.SeekCursorIff | src/ftc_comm.cpp:554-567 | From any related state the same, for offsets from -2^31 on; below, where the plain seek fails, if and only if the cut seek leaves the cursor. |
| Seeks.SeekReplyIff | src/ftc_comm.cpp:562 | From any related state the reply to a seek is the plain position if and only if that is below 2^31. |
| Seeks.FailedOpenSeekIff | src/ftc_comm.cpp:562 | A seek on the -1 of a failed open replies a failure, as the plain seek does if and only if its target is negative. |
| Seeks.ReplyWakesItsThread | src/ftc_comm_client.cpp:262-272 | In a process that seeks one at a time, once a reply is delivered its thread can wake up and returns the position the reply carries. |
| Seeks.OverlappingSeeksBlock | src/ftc_comm_client.cpp:44-64 | Any two seeks of a process in flight to servers that listen can be handled and answered so that both threads are blocked. |
| Seeks.BlockedStays | src/ftc_comm_client.cpp:262-272 | A blocked thread can neither wake up nor time out, and every event but another seek of its process leaves it blocked. |
| Seeks.HungStays | src/ftc_comm_client.cpp:262-272 | When all threads are blocked and nothing is in flight, no call ever goes on again. |
| Counterexamples.WideSeekMisplaces | src/ftc_client.cpp:233-250 | A disciplined run without faults in which a seek to 2^32 + 1 goes to 1. |
| Counterexamples.OverlappingSeeksHang | src/ftc_comm_client.cpp:44-64 | A disciplined run without faults in which two threads seek, both replies arrive, and both calls hang for ever. |
| Counterexamples.ReadAfterFailedOpenKillsServer | src/ftc_comm.cpp:344-384 | A disciplined run in which the server's open failed and the next sequential read kills the server without a reply. |
| Counterexamples.SeekAfterFailedOpenFails | src/ftc_comm.cpp:562 | A disciplined run in which the server's open failed and a seek fails where the plain one succeeds. |
| Counterexamples.UnacknowledgedReadMisreads | src/ftc_comm_client.cpp:419 | A run disciplined but for one descriptor: a read after its timed-out open carries the default-inserted descriptor 0 and returns another file's byte. |
| Counterexamples.LateReplyMisreads | src/ftc_comm_client.cpp:66-77 | A run that breaks only the clause about replies that can still come: a close is skipped at the limit, the number reused for a file of the other server, and the late open reply redirects it to another file there. |
| Counterexamples.UnacknowledgedCloseMisreads | src/ftc_comm_client.cpp:291 | A run that breaks only the clause that a close awaits its open: the close of a lost open closes descriptor 0, and once the number is issued again another descriptor's positioned read returns the wrong file's byte. |
| Counterexamples.RacingCloseMisreads | src/ftc_comm_client.cpp:319 | A run without faults that breaks only politeness: a close racing with a positioned read erases the redirection, and the read returns a byte of neither outcome's file. |
| Counterexamples.FailedOpenKillsServer | src/ftc_comm.cpp:516-519 | A disciplined run after which a server takes up a close of the -1 of its own failed open and is gone. |
| Transparency.EventKeepsSysInv | src/ftc_client.cpp:78-268 | Every event of a disciplined run keeps the system invariant: client tables, server invariants, ownership of server descriptors, and honesty of every request and reply still waited for. |
| Transparency.Reachable | src/ftc_client.cpp:78-268 | The system invariant holds in every state of every disciplined run. |
| Transparency.ServedPreadHonest | src/ftc_comm.cpp:354-384 | A running server answers a positioned read that is still waited for with the bytes of the caller's file or with a failure. |
| CursorSteps.CursorRefinementTheorem | src/wrappers.c:205-329 | For any set of descriptors, every run that is disciplined and sound for them is shadowed by a run of plain files with one cursor each, in which each of their calls starts and ends where it does in the cache and takes effect once in between; faults that leave their cursors alone are allowed, and the choice of PFS or NVMe copy does not show. |
| CursorSteps.ReturnsLikePlain | src/wrappers.c:205-329 | What a finished call on such a descriptor returned is what the plain file returned, seek positions from 2^31 on being cut to 32 bits. |
| CursorSteps.EventSim | src/ftc_comm.cpp:278-567 | From related states, each sound event of the cache, timeouts, crashes and losses included, is matched by steps of the plain files that lead to related states. |
| CursorSteps.CarriedCursor | src/ftc_comm.cpp:344-368 | A sequential request that takes effect names a server descriptor with the data and the cursor of the plain file it stands for. |
| CursorSteps.HandledLikePlain | src/ftc_comm.cpp:344-368 | The server moves exactly the carried descriptor's cursor as the plain call would and replies what the plain call returns. |
| CursorInvariants.EventSane | src/ftc_comm_client.cpp:44-64 | Every sound event keeps: request numbers are unique, what is still waited for is unanswered, seeks are awaited one at a time, redirections are real and descriptors on their way are unread. |
| CursorInvariants.OwnRequestOwned | src/ftc_client.cpp:160-250 | A sequential request of the set still waited for carries to a running server the descriptor its own caller owns there. |
| CursorInvariants.UnsoundIsStray | src/ftc_comm.cpp:344-348 | Where all calls await their opens, a request that moves a descriptor of the set against its owner is one whose caller gave up, or a retried one. |
| CursorInvariants.ServeSteady | src/ftc_comm.cpp:344-368 | A sound request moves no descriptor of the set but that of its own caller. |
| CursorSteps.SteadyCursor | src/ftc_comm.cpp:344-368 | When a sequential request moves its caller's descriptor, the cursor of every other descriptor of the set stays. |
| FaultFree.EventCalm | src/ftc_comm_client.cpp:44-64 | Faultless events keep every server up, every counter at 0, every request awaited and every close one of an open descriptor. |
| FaultFree.PoliteIsDisciplined | src/ftc_client.cpp:94-149 | In the states of faultless polite runs every polite call keeps the whole discipline: what is not acknowledged is still being opened. |
| FaultFree.FaultlessRunIsSound | src/wrappers.c:205-329 | A polite run without timeout, crash, loss, failed open or device error keeps the whole discipline and is sound for all descriptors of all processes. |
| FaultDetector.OvershootBound | src/ftc_client.cpp:139-149 | With T threads every counter of every reachable state is at most TIMEOUT_LIMIT - 1 + T; counters and threads past the check together stay below TIMEOUT_LIMIT + T. |
| FaultDetector.BoundIsAttained | src/ftc_client.cpp:139-149 | For every T >= 1 some run takes a counter to exactly TIMEOUT_LIMIT - 1 + T. |
| FaultDetector.TimeoutsAreBounded | src/ftc_comm_client.cpp:199-259 | A run of any length suffers at most N * (TIMEOUT_LIMIT - 1 + T) timeouts. |
| FaultDetector.TimeoutsAreCounted | src/ftc_comm_client.cpp:212-218 | The sum of the counters is the number of timeouts so far: none is lost, none counted twice. |
| FaultDetector.CountersNeverDrop | src/ftc_client.cpp:73-75 | Every event leaves a counter as it is, the second initialisation included, except that a timeout of a call to that host raises it by one. |
| FaultDetector.DeadHostStaysDead | src/ftc_client.cpp:137-149 | Once a host is at its limit with no thread between check and send, it stays so in every later state and no later event sends it an open, read, positioned read or close. |
| FaultDetector.SeekIgnoresLimit | src/ftc_client.cpp:233-250 | A seek on a tracked descriptor passes whatever the counter. |
| FaultDetector.DeadHostIsSentSeeks | src/ftc_client.cpp:233-250 | A run in which a host that stays dead for all other calls is sent a seek. |
| LocalLife.OpenAtLimit | src/ftc_client.cpp:94-146 | An open while the host is at its limit records the descriptor, sends nothing and leaves the local cursor at 0. |
| LocalLife.WhollyLocalLife | src/ftc_client.cpp:172-179 | The sequential reads of such a descriptor, until its close and whatever other threads do, return together exactly the file's bytes up to its cursor, in order. |
| LocalLife.ServedLocally | src/wrappers.c:215-225 | Every read and positioned read of such a descriptor is answered at once with the bytes of the local file. |
| Server.StepKeepsInv | src/ftc_data_mover.cpp:25-73 | Every step of the close handler and the mover keeps coherence of cache and open files, lock ownership, conservation of queued paths, and the pending wake-up. |
| Server.CopyCoherent | src/ftc_data_mover.cpp:50-69 | A copy, complete or broken off, into a fresh directory overwrites no source and no cached file, even between equal base names, and a complete one has its source's bytes in a file of that directory named after what follows the path's last slash, or the whole path. |
| PlainFile.BaseNameMeans | src/ftc_data_mover.cpp:56 | The base name has no slash, and is the whole path or what follows a slash in it up to its end. |
| Server.PublishCoherent | src/ftc_data_mover.cpp:59-62 | Publishing keeps every cached path on an NVMe file of its own with the contents of the path. |
| Server.HandlerStepCoherent | src/ftc_comm.cpp:522-550 | Each step of the close handler keeps the server coherent. |
| Server.StepConserved | src/ftc_data_mover.cpp:42-69 | Processed paths, paths in hand and queued paths, in this order, remain the sequence of all paths ever enqueued, and each processed path is cached or had its copy fail. |
| Server.OpenKeepsInv | src/ftc_comm.cpp:436-466 | An open, from PFS or NVMe or failing, keeps the server invariant: every open descriptor reads the PFS contents of its fd_to_path entry. |
| Server.CloseKeepsInv | src/ftc_comm.cpp:516-519 | The start of a close keeps the invariant, also when its assertion fails. |
| ServerProgress.CopyIsInvisible | src/ftc_comm.cpp:440-453 | The bytes behind a fresh server descriptor are those of the PFS path, cached or not, at cursor 0. |
| ServerProgress.NoDeadlock | src/ftc_comm.cpp:522-533 | Handler and mover are never both blocked; a blocked handler is released by the mover's next step, and a blocked mover waits for a handler that can move. |
| ServerProgress.CloseCanFinish | src/ftc_comm.cpp:522-550 | From every state of the invariant a bounded sequence of steps takes the close handler to its end, adding at most one path to the mover's work. |
| ServerProgress.MoverCanFinish | src/ftc_data_mover.cpp:35-71 | From every state of the invariant a bounded sequence of steps ends the close and gets the mover through all paths: each path ever enqueued is processed, and cached unless its copy had failed. |
| ServerProgress.AnyCopyMayHappen | src/ftc_data_mover.cpp:50-59 | A mover at work may have its copy break off at any point, leaving any bytes, or complete with the source's bytes, in any fresh directory. |
| ServerProgress.NoLostWakeup | src/ftc_data_mover.cpp:36-40 | A mover asleep over a non-empty queue is about to be signalled, and the signal wakes it. |
| ServerProgress.InOrder | src/ftc_data_mover.cpp:42-69 | The mover processes paths in the order they were enqueued, each once: the processed paths are always a prefix of the enqueued ones. |
| ServerProgress.ClosedIsAccountedFor | src/ftc_comm.cpp:522-550 | When a close ends, its path is cached, queued, in hand, or its copy failed. |
| ServerProgress.NoRedirectChains | src/ftc_data_mover.cpp:59-61 | Only PFS paths are ever enqueued or cached, and no NVMe name is enqueued or itself cached. |
| RunFacts.ServersCoherent | src/ftc_data_mover.cpp:50-70 | In every state of every disciplined run every server's cache, open descriptors and queue are coherent and conserved. |
| RunFacts.NeverStuck | src/ftc_data_mover.cpp:35-71 | In every state of every disciplined run, on every running server: no deadlock, no lost wake-up, and steps that end the close and process everything enqueued. |
| RunFacts.EnqueuedNotForgotten | src/ftc_comm.cpp:522-550 | In every such state each path ever enqueued is cached, failed, in hand or queued. |
| RunFacts.CachingIsPermanent | src/ftc_comm.cpp:523-532 | Over any stretch of a disciplined run a cached path stays cached and is not among the paths enqueued since. |
| RunFacts.CloseAssertionIff | src/ftc_comm.cpp:516-519 | When a server takes up a close in a disciplined run, its assertion holds if and only if the descriptor is not negative; a negative one is -1 and an open had failed with it on this server before. |
| RunFacts.OnlyFailedOpensNegative | src/ftc_comm.cpp:453-467 | Whatever owns a negative descriptor of a running server owns the -1 of an open that failed there. |
| RunFacts.RoutingAffinity | src/ftc_client.cpp:252-268 | A close, or a request on a descriptor the run is disciplined for, about to go to a running server is bound for the host of its path and carries a descriptor that this server issued for that path and that only the caller owns; hash = quotient * N + that host. |
| RunFacts.EveryRequestRouted | src/ftc_client.cpp:137-148 | Whatever request any thread of any disciplined run sends, its host is the remainder of the hash of the path its descriptor is tracked under. |
| RunFacts.AnythingMayHappen | src/ftc_comm_client.cpp:199-259 | In every state any server may crash, any message may get lost, any reply may arrive, any call but a seek may time out at any time while it waits, and a listening server may take up any request in any order. |
| RunFacts.FaultsMean | src/ftc_comm_client.cpp:199-259 | A lost message and a crashed server change nothing but themselves. |
| RunFacts.RequestMeans | src/ftc_client.cpp:94-268 | Each call's request, field by field: the redirected descriptor or 0, -1 for the place of a sequential read, the seek offset cut to 32 bits. |
| RunFacts.ServedPreadMeans | src/ftc_comm.cpp:344-384 | Serving a positioned read changes no server and replies the bytes of the descriptor's file from the offset on, as many as asked for and left, or a failure, exactly when the device fails, the descriptor is not open or the offset is negative. |
| Client.HostIsRemainder | src/ftc_client.cpp:137 | The host of a path is the remainder of its hash by the number of servers. |
| Client.PlainCallMeans | src/wrappers.c:205-329 | What the real calls do to a local descriptor: the bytes a read gives and where it leaves the cursor, the position for each whence, the failures, and that an open starts at 0 and a close forgets. |
| RunFacts.DescriptorsConserved | src/ftc_comm_client.cpp:275-325 | While no open reply or close is lost and no close is skipped at the limit, the open descriptors of running servers correspond one to one to redirect entries, open replies and closes in flight. |
| Ownership.EventTokens | src/ftc_comm_client.cpp:66-77 | Every event keeps: what is owned on a running server is open there on the right file, and has one owner. |
| Ownership.EventOpens | src/ftc_client.cpp:94-149 | Every disciplined event keeps: an open that can still be answered concerns a tracked, unacknowledged descriptor, and there is at most one per descriptor. |
| CacheServer.ClosedEnqueuesOnce | src/ftc_comm.cpp:516-550 | A whole close enqueues its path exactly when it is not cached, then leaves no sleeping mover, forgets the descriptor, changes nothing else and keeps the invariant. |
| CacheServer.PassCachesAll | src/ftc_data_mover.cpp:50-70 | A pass over the paths in hand leaves none, processes all in order, caches those whose copy completed and changes no other cache entry. |
| CacheServer.PassKeepsInv | src/ftc_data_mover.cpp:50-70 | A whole pass keeps the server invariant. |
| CacheServer.CacheServer.OpenHandler | src/ftc_comm.cpp:436-467 | The handler's updates are the open step of the model, and it replies the descriptor; it opens the cached copy of the path if there is one and the path itself otherwise, at position 0. |
| CacheServer.CacheServer.RpcHandler | src/ftc_comm.cpp:344-384 | Both branches, with the second attempt on the client's number and the death of the process when both fail, are the read steps of the model; the bytes are those of the descriptor's file from the offset or its cursor on, as many as asked for and left. |
| CacheServer.CacheServer.SeekHandler | src/ftc_comm.cpp:554-567 | For whence 0, 1 and 2 the cursor goes to the offset, the old cursor plus it, or the length plus it, and the reply is that modulo 2^32; below zero, for another whence or without the descriptor the reply is -1 and the cursor stays. This is the seek step of the model. |
| CacheServer.CacheServer.CloseFile | src/ftc_comm.cpp:516-519 | The close and its assertion are the model's start of a close. |
| CacheServer.CacheServer.LookUpClosed | src/ftc_comm.cpp:522-523 | From any state in which the lock is free: the lookup under the path lock is the model's step, whatever the mover did before. |
| CacheServer.CacheServer.PushClosed | src/ftc_comm.cpp:528 | From any state in which the handler holds both locks: the push is the model's step. |
| CacheServer.CacheServer.SignalMover | src/ftc_comm.cpp:529-530 | Likewise the signal and unlock. |
| CacheServer.CacheServer.ForgetClosed | src/ftc_comm.cpp:533-550 | Likewise the unlock and the end of the close. |
| CacheServer.CacheServer.CloseHandler | src/ftc_comm.cpp:516-550 | The pieces one after the other are the model's sequence from close to the end. |
| CacheServer.CacheServer.DrainOrSleep | src/ftc_data_mover.cpp:38-45 | Holding the lock, whatever the handler is at: the loop moves the whole queue, in order, behind the paths in hand, or the mover goes to sleep. |
| CacheServer.CacheServer.DrainQueue | src/ftc_data_mover.cpp:36-47 | Taking the lock and draining, one after the other, are the model's two steps. |
| CacheServer.CacheServer.CopyName | src/ftc_data_mover.cpp:55-56 | The copy's name is the directory's, a slash, and what follows the path's last slash, or the whole path. |
| CacheServer.CacheServer.CopyFile | src/ftc_data_mover.cpp:52-59 | A copy, complete or broken off, is the model's step, whatever the handler is at; the name is the fresh directory's and what follows the path's last slash, or the whole path. |
| CacheServer.CacheServer.PublishCopy | src/ftc_data_mover.cpp:61-69 | Holding the path lock, the publication is the model's step: the path in hand is cached under the copy's name, and the lock is free. |
| CacheServer.CacheServer.CopyLocalList | src/ftc_data_mover.cpp:50-70 | The loop over the paths in hand is the model's sequence of copies and publications, and empties the list. |
| CacheClient.PreadIsPlain | src/wrappers.c:248-274 | The events of one wrapped positioned read, remote, refused at the limit, timed out or failed, end with the real call's result and move no cursor, provided a reply that is not a failure tells the truth. |
| CacheClient.ReadScript | src/ftc_client.cpp:160-231 | The state and result in which the events of a read or positioned read end, for each way it can go. |
| CacheClient.OpenScript | src/ftc_client.cpp:94-149 | The state in which the events of an open that goes to its server end. |
| CacheClient.CloseScript | src/ftc_client.cpp:252-298 | The state in which the events of a close end, sent or skipped at the limit. |
| CacheClient.CacheClient.TrackFile | src/ftc_client.cpp:94-153 | Records the descriptor in any case; below the limit sends the open to the path's host and counts a timeout or records the redirection; answers false at the limit; the host is the remainder of the hash by the number of servers. |
| CacheClient.CacheClient.Open | src/wrappers.c:91-134 | The wrapper's effect on all tables, its result and its request are those of the model's events. |
| CacheClient.CacheClient.Read | src/wrappers.c:205-228 | The same for read, with its fallback. |
| CacheClient.CacheClient.Pread | src/wrappers.c:248-274 | The same for pread, with its fallback. |
| CacheClient.CacheClient.Lseek | src/wrappers.c:308-329 | The same for lseek, without limit or timeout, the offset cut to 32 bits in the request; the host is the remainder of the hash, the descriptor the redirected one or 0. |
| CacheClient.CacheClient.Close | src/wrappers.c:180-202 | The same for close: the descriptor is forgotten in any case, the redirection only when the close is sent. |
| CacheClient.CacheClient.RemoteRead | src/ftc_client.cpp:160-231 | Fails when untracked, at the limit, or timed out, then counting the timeout; otherwise gives the reply, and carries the redirected descriptor; the host is the remainder of the hash. |
| CacheClient.CacheClient.RemoteClose | src/ftc_client.cpp:252-268 | Sends the close with the redirected descriptor and erases the redirection, or does neither; the host is the remainder of the hash. |
| CacheClient.CacheClient.InitializeTimeoutCounters | src/ftc_client.cpp:73-75 | A second initialisation keeps every counter. |
| AddressBook.RoundTripIff | src/ftc_comm.cpp:209-216 | Scanning the printed lines gives back the list written if and only if every address is non-empty and without white space. |
| AddressBook.ScanEntryIff | src/ftc_comm_client.cpp:519 | Scanning with `%d %s` gives an entry and a rest if and only if the text is white space, a sign or none, all the digits of the rank, white space, the address up to the next white space, and that rest. |
| AddressBook.FirstMatchMeans | src/ftc_comm_client.cpp:519-526 | The scan finds x if and only if an entry with exactly the rank asked for has address x and none before it has that rank; it finds nothing if and only if no entry has the rank. |
| AddressBook.FirstMatchStable | src/ftc_comm_client.cpp:519-526 | A rank found in a file of complete lines is found at the same address after anything is appended. |
| AddressBook.CacheStaysFresh | src/ftc_comm_client.cpp:492-535 | Whatever servers append, each cached address remains what a fresh first-match scan would find. |
| AddressBook.AddressCache.Lookup | src/ftc_comm_client.cpp:492-535 | A lookup, cached or scanning, answers x if and only if some entry of the scanned registry has the rank asked for and address x and none before it has that rank, and None if and only if there is no such entry; hits are cached, misses are not. |
| AddressBook.AddressCache.TheHardWay | src/ftc_comm_client.cpp:500-530 | The loop over the registry's lines finds the address that the specification does. |
| AddressBook.Registry.ListAddr | src/ftc_comm.cpp:209-216 | A server appends its line and leaves complete lines: what was there, then rank, space, address and end of line. |
| HashRing.HashRing.AddServer | tests/load_distribution_simul.cpp:54-69 | The ring afterwards holds the old points and all the server's points, its own overwriting others, and is that of the history with this addition; the last point is returned. |
| HashRing.HashRing.RemoveServer | tests/load_distribution_simul.cpp:72-85 | The ring afterwards is the old one without the server's points, whoever owned them, and is that of the history with this removal. |
| HashRing.ChangeMeans | tests/load_distribution_simul.cpp:54-85 | An addition adds exactly the points `hash(name + i)` for i below the replica count, for that server; a removal erases exactly these; other entries stay. |
| HashRing.HashRing.GetServer | tests/load_distribution_simul.cpp:88-104 | Fails exactly on the empty ring; otherwise the owner of the point at least clockwise distance from the hash modulo 2^64. |
| HashRing.OwnerMeans | tests/load_distribution_simul.cpp:93-103 | The owner of a hash is the server at the least point not below it, or at the least point of all when all are below. |
| HashRing.HashRing.LowerBound | tests/load_distribution_simul.cpp:96 | The index that splits the sorted points into those below the hash and the others. |
| HashRing.HashRing.GetDistribution | tests/load_distribution_simul.cpp:107-114 | Each server's list is the data it owns, in order. |
| HashRing.OwnedByMeans | tests/load_distribution_simul.cpp:107-114 | The data a server owns are exactly those whose hash it owns, in the order of the list. |
| HashRing.MonotoneGrowth | tests/load_distribution_simul.cpp:54-104 | After adding a server, every key's owner is its old owner or that server, even when points collide. |
| HashRing.ReplayWellPlaced | tests/load_distribution_simul.cpp:54-85 | After any history of adds and removes, colliding points or not, each entry lies at a point of the server it names. |
| HashRing.MinimalDisruption | tests/load_distribution_simul.cpp:72-104 | After any history followed by the removal of a server no key maps to it, and every key whose successor was not one of its points keeps its owner. |
| HashRing.ExactlyTheKeysOfSMove | tests/load_distribution_simul.cpp:72-104 | After any history that left the server in possession of its points, exactly its keys change owner on removal. |
| HashRing.DisjointOwnsItsPoints | tests/load_distribution_simul.cpp:54-85 | With disjoint points every history leaves a server in possession of its points. |
| HashRing.RingIsFunctionOfLiveSet | tests/load_distribution_simul.cpp:54-85 | With disjoint points, two histories of adds and removes with the same surviving servers give the same ring. |
| HashRing.ReplayIsLive | tests/load_distribution_simul.cpp:54-85 | With disjoint points, the ring after any history holds exactly the points of the surviving servers. |
| HashRing.RemoveUndoesAddIff | tests/load_distribution_simul.cpp:54-85 | Removing a server just added restores the ring if and only if none of its points was taken before. |
| HashRing.FleetDisjointIff | tests/load_distribution_simul.cpp:153-167 | For a hash without collisions among the names of a fleet, points are disjoint if and only if there are at most ten replicas or at most ten servers. |
| HashRing.PerfectHash | tests/load_distribution_simul.cpp:60-63 | Such a hash exists for any set of names no larger than the circle. |
| HashRing.ReplicaNamesInjective | tests/load_distribution_simul.cpp:60 | With one-digit replica numbers, server name plus number determines both. |
| Numerals.NumberOfDecimal | tests/load_distribution_simul.cpp:60 | A numeral has its number's value and no leading zero. |
| Redistribution.Redistribute | tests/load_distribution_simul.cpp:169-192 | The counts after the failure are the incremental ones, and their total is the number of files whatever the removal erased. |
| Redistribution.Place | tests/load_distribution_simul.cpp:169-176 | The first placement's counts and lists are those of the owners of all files. |
| Redistribution.IncrementalIff | tests/load_distribution_simul.cpp:185-192 | The incremental counts equal those of placing every file again, for all file lists, if and only if each erased point of another server is followed by a surviving point of the same server. |
| Redistribution.IncrementalIsRecomputation | tests/load_distribution_simul.cpp:185-192 | In particular when the failed server owns every point its removal erases. |
| Redistribution.SharedPointBreaksIncremental | tests/load_distribution_simul.cpp:161-192 | For every fleet Server1, Server2, ... of more than ten servers with more than ten replicas there is a hash without collisions among their names and a file that stays counted on Server11, and not on Server2, after Server1 fails, though the ring gives it to Server2. |

## Left out

- Mercury, bulk handles, address resolution, real clocks and pthread primitives: they are steps (send, deliver, time out, lock, wait, signal); a failed bulk transfer is a lost reply.
- Each request has its own reply record, so a late reply lands in a dead one; the reuse of a stack frame, and a late bulk push into a buffer the caller has reused, are not modelled.
- Data races on the unsynchronised client maps: each event is atomic.
- A local open that fails, and path canonicalisation and the data-directory test: whether an opened path is tracked is a parameter of the call.
- The descriptors a server process has besides those it opened for clients (standard streams, sockets): the model's server may hand out any non-negative number.
- Read sizes of 2^31 bytes and more, whose conversion to `int32_t` the client does not check: `Count` excludes them.
- CursorSteps.CursorRefinementTheorem: asks that the run is sound for the descriptors, because each thing excluded breaks a cursor; nothing is asked of other descriptors but that their use is polite and their closes disciplined.
- The read and open callbacks assert that their RPC succeeded (src/ftc_comm_client.cpp:74, src/ftc_comm_client.cpp:128): a transport error kills the client, where a crashed server of the model is silent.
- RunFacts.DescriptorsConserved: asks that no open reply or close is lost and no close skipped at the limit, because each of these leaves a server descriptor without owner.
- HashRing.HashRing.AddServer: returns no point for 0 replicas, where the original returns an uninitialised value.
- AddressBook.AddressCache.Lookup: a miss is None, where the original returns an uninitialised address; a rank that does not fit `int` and addresses longer than PATH_MAX are not modelled.
- CacheServer.CacheServer.CloseHandler: runs its pieces without interruption, for a method cannot be interrupted; each piece is proved from any state the mover may have left.
- CacheClient.CacheClient.Read: one thread's call while the others stand still, like the other wrapped calls; the interleaving of threads is covered by the events of `Client`.
- Load balance of the ring, directory walking, the random choice of the failed server and the CSV output of the simulator.
- `fopen`, `fopen64` and `open64` as calls of their own: they track a descriptor like `open` (src/wrappers.c:51-89, src/wrappers.c:136-176). The wrapper of `fclose` (src/wrappers.c:432) is disabled, so a tracked descriptor closed by it stays in the tables; the model has no such close.
- `readv`, `read64`, `write` and the other wrappers that pass through; logging, environment variables, preload macros and start-up.
- src/ftc_fault_client.cpp, which the build leaves out.
