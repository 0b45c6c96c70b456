# Verified models of the Linux 3.5 block layer

Dafny models of the parts of `linux-3.5/block` that carry real invariants, and of
one cipher of `linux-3.5/crypto`, with proofs of what their comments promise or
what follows from them and is nowhere written down. `dafny verify dfyconfig.toml`
checks the whole project.

| component | modules | main results |
|---|---|---|
| FLUSH/FUA sequencer | `FlushModel`, `FlushSafety`, `FlushRuns`, `FlushErrors`, `FlushQueue` | durability of PREFLUSH and POSTFLUSH, down to the flags of the submission, one flush at a time, no stall, one `bio_endio` per bio with an honest verdict |
| CFQ queue merging | `CfqMerge`, `CfqBooks`, `CfqQueues` | merge chains stay finite and unfreed; reference counts are exact, and a queue is freed exactly when unused, but for one leak |
| CFQ groups | `CfqGroups`, `CfqOrder`, `CfqFairness`, `CfqWeights`, `CfqTree` | tree consistency, order and weighted fairness across 64-bit wrap-around |
| Throttling | `ThrottleRate`, `ThrottleExact`, `ThrottleSlice`, `ThrottleQueue`, `ThrottleRuns`, `ThrottleBound`, `ThrottleData` | exact verdicts, rate bound on what goes out, from above and below, over all trims, restarts and dispatch rounds; queue conservation, order, termination |
| Segments | `Segments`, `SegmentShape`, `Scatterlist` | the segment count bounds the scatterlist built later, which is exactly a shortest list of allowed entries |
| Completion | `Completion`, `CompletionErrors`, `CompletionPlace`, `CompletionRequest` | partial completions compose; each bio ends once, in order, with the right error; positions follow |
| Deadline scheduler | `Deadline`, `DeadlineIndices`, `DeadlineStarvation`, `DeadlineExpiry`, `DeadlineScheduler` | indices agree, drain ends, neither direction is starved, expired requests are served |
| Dispatch order | `ElevatorOrder` | one-way order under a moving head |
| Merging | `MergeLookup`, `MergeBios`, `MergeElevator`, `MergeScheduler` | no bio lost or doubled, lookups and verdicts exact, requests gap-free, hash and scheduler alike |
| Tags, io_cq | `Tags`, `IoContext` | safety and exact answers of two protocols over all interleavings |
| Anubis | `AnubisTables`, `Anubis`, `AnubisCipher` | decryption inverts encryption, from the literal tables up |

`Lists` holds the option type and the lists of distinct identities the others share.

How the models are built:

- Each component has a value model, one function per operation of the source, and
  where the source works in place a class whose methods, loops included, are proved
  to leave exactly the state of those functions. The theorems are about the
  functions and hold for every run of operations.
- A critical section under the queue lock is one step. `Tags` and `IoContext`, which
  share data between locks, are split into single reads and writes of the bitmap and
  the slots, of the tree, each of the two lists and the hint instead.
- BUG_ON, and following a pointer to something freed, set a `bug` flag that the
  theorems show is never set.
- Linked lists are sequences; red-black and radix trees are sequences or maps in
  their key order, an insertion search walking from the front.
- Jiffies are a non-decreasing integer that a critical section reads once. Widths
  matter, and are written out, in `ThrottleRate` (64 and 32 bits), `CfqGroups` (64-bit
  virtual time), `MergeLookup` (64-bit sectors) and the cipher (bit vectors).
- What a model does not decide (which queues are close enough to merge, whether
  segment limits allow a bio, what a scheduler allows, when a driver completes what)
  is an argument or an action of the run, left open.

## Model

| member | source | states |
|---|---|---|
| `FlushRuns.PreflushDurable` | linux-3.5/block/blk-flush.c:144-213 | in every reachable state, DATA of a request whose policy has PREFLUSH was started only after a flush that was issued after the request's insertion had completed without error |
| `FlushRuns.PostflushDurable` | linux-3.5/block/blk-flush.c:144-229 | in every reachable state, a data request with POSTFLUSH that ended without error did so only behind a flush issued after its DATA had completed; one without data, behind a flush issued after its insertion; FlushBeforeEnd says the same of the flags it was submitted with |
| `FlushRuns.FlushBeforeData` | linux-3.5/block/blk-flush.c:94-110 | in every reachable state, a request submitted with REQ_FLUSH to a queue that flushes has its DATA started only behind a flush that was issued after its insertion and completed without error; stated on the flags of the submission alone |
| `FlushRuns.FlushBeforeEnd` | linux-3.5/block/blk-flush.c:94-110 | on the same flags: a request with data and REQ_FUA, on a queue that flushes but has no FUA, ends without error only behind a flush issued after its data; one with REQ_FLUSH not before its data is done; one without data only behind a flush issued after its insertion |
| `FlushRuns.NoFlushNormal` | linux-3.5/block/blk-flush.c:303-334 | a request that asks for neither is never on a flush list and never sequenced: with data it is exactly one normal command until it ends, without data it ends at once; one that asks for either is never a normal command; REQ_FUA is kept for the driver exactly if the queue has it |
| `FlushRuns.AskedRecorded` | linux-3.5/block/blk-flush.c:298-302 | the flags the three theorems above speak of are those of a submission in the run: each is on record, for the request it submitted |
| `FlushRuns.FailureReported` | linux-3.5/block/blk-core.c:153-179 | a bio of which a driver reported any byte as failed is ended once, and not as good, also if its last bytes succeed |
| `FlushErrors.NoErrorNoFailure` | linux-3.5/block/blk-flush.c:174-213 | in a run in which no completion is reported as failed, no request ends with an error and every bio ended is ended as good |
| `FlushRuns.OneFlushNoStall` | linux-3.5/block/blk-flush.c:194-273 | in every reachable state the one flush command is outstanding exactly when the two indices differ, no BUG was reached, and requests pending with no flush outstanding imply a DATA command that will kick the next flush |
| `FlushRuns.OneListPerRequest` | linux-3.5/block/blk-flush.c:144-192 | a sequenced request is on exactly one of the three lists, the one of its current step, and has a DATA command exactly while on the in-flight list; other requests are on none |
| `FlushRuns.BioEndedOnce` | linux-3.5/block/blk-flush.c:115-185 | the bio of a request is ended exactly once, when the request is done, on every path and however often the request itself was completed |
| `FlushRuns.NextKeeps` | linux-3.5/block/blk-flush.c:144-345 | every submission, fetch, requeue, completion and tick keeps the invariant the five theorems above are read off, and only appends to the event log |
| `FlushRuns.FlushEndKeeps` | linux-3.5/block/blk-flush.c:194-229 | completion of the flush command, with its walk over the running list, keeps the invariant |
| `FlushRuns.DataKeeps` | linux-3.5/block/blk-flush.c:275-285 | completion of DATA, partial or whole, with or without error, keeps the invariant |
| `FlushRuns.InsertSequenced` | linux-3.5/block/blk-flush.c:336-345 | a request that enters the flush machinery is put on the list its policy asks for, and the invariant holds |
| `FlushRuns.InsertPlain` | linux-3.5/block/blk-flush.c:312-334 | a request without work is ended, and one with data but no flush work is queued as a normal request, once each |
| `FlushSafety.KickKeeps` | linux-3.5/block/blk-flush.c:244-273 | after a kick, pending requests without an outstanding flush imply DATA in flight, and the requests a new flush covers were listed before it was issued |
| `FlushSafety.KickWhen` | linux-3.5/block/blk-flush.c:250-262 | a flush is issued exactly if none is outstanding, requests are pending, and no data is in flight or the first of them has waited for the timeout; then exactly one is queued |
| `FlushSafety.RouteToFlush` | linux-3.5/block/blk-flush.c:160-166 | moving a request to the pending list leaves it on that list only and disturbs no other request |
| `FlushSafety.RouteToData` | linux-3.5/block/blk-flush.c:168-172 | starting DATA happens behind the flush the policy asks for, and leaves one DATA command and one list entry |
| `FlushSafety.RouteToDone` | linux-3.5/block/blk-flush.c:174-185 | finishing a request leaves it on no list and without commands, and ends its bio behind the flush its policy asks for |
| `FlushSafety.CompleteKeeps` | linux-3.5/block/blk-flush.c:144-192 | recording a completed step and routing to the next keeps every part of the invariant, kick included |
| `FlushSafety.WalkKeeps` | linux-3.5/block/blk-flush.c:204-213 | the walk over the running list keeps the invariant although a kick in its middle can make the walked list the pending one |
| `FlushSafety.EndsOnce` | linux-3.5/block/blk-core.c:153-179 | a sequenced request restored at DONE is completed with all its bytes and has its bio ended for the first time |
| `FlushModel.WalkShrinks` | linux-3.5/block/blk-flush.c:208-213 | each visit of the walk leaves less work on the walked list even when the request re-enters it, so the walk ends |
| `FlushQueue.Queue.KickFlush` | linux-3.5/block/blk-flush.c:244-273 | the in-place kick leaves exactly the state of the model's kick |
| `FlushQueue.Queue.AwaitFlush` | linux-3.5/block/blk-flush.c:160-166 | the in-place move to the pending list, with its time stamp, is the model's |
| `FlushQueue.Queue.IssueData` | linux-3.5/block/blk-flush.c:168-172 | the in-place start of DATA is the model's |
| `FlushQueue.Queue.Finish` | linux-3.5/block/blk-flush.c:174-185 | the in-place DONE step is the model's, BUG_ON on a still queued request included |
| `FlushQueue.Queue.FlushCompleteSeq` | linux-3.5/block/blk-flush.c:144-192 | the whole of blk_flush_complete_seq in place is the model's, for every request, mask and error |
| `FlushQueue.Queue.FlushEndIo` | linux-3.5/block/blk-flush.c:194-229 | the loop of flush_end_io in place leaves the state of the model's walk |
| `FlushQueue.Queue.FlushDataEndIo` | linux-3.5/block/blk-flush.c:275-285 | the in-place completion of DATA is the model's |
| `FlushQueue.Queue.InsertFlush` | linux-3.5/block/blk-flush.c:298-345 | the in-place insertion is the model's, for all four outcomes of the policy; which outcome each combination of flags has is stated by FlushBeforeData, FlushBeforeEnd and NoFlushNormal |
| `CfqMerge.MergeChainsSafe` | linux-3.5/block/cfq-iosched.c:2444-2494 | after every run: none of the BUG_ON tests on queues fired, process references of a queue cover its attached contexts and those of all queues merging into it, a queue with a process reference has a finite chain of live queues without repetition, a queue with requests to serve is on the round robin, and one without only while it is served |
| `CfqBooks.BooksExact` | linux-3.5/block/cfq-iosched.c:2454-3022 | after every run the process references of a queue are exactly its attached contexts, plus those of the queues merging into it, plus one for every time a cgroup change let go of a queue that was to merge into it |
| `CfqBooks.FreedWhenUnused` | linux-3.5/block/cfq-iosched.c:2965-3022 | so a queue is free if and only if it has no request, no context, no queue merging into it, and no such reference was lost |
| `CfqBooks.CgroupChangeLoses` | linux-3.5/block/cfq-iosched.c:3158-3167 | a concrete run after which a queue nobody uses is never freed: check_blkcg_changed drops the queue without cfq_put_cooperator |
| `CfqBooks.SetRequestIs` | linux-3.5/block/cfq-iosched.c:3796-3846 | the request is counted once, in its direction, with the new queue if the context has none or shares one that is broken up, else with the queue its queue merges into if there is one, else with its queue; the context holds that queue, and no other count changes |
| `CfqBooks.UnsortedIs` | linux-3.5/block/cfq-iosched.c:1986-1994 | a queue whose last request is merged away leaves the round robin unless it is being served; any other queue stays as it was |
| `CfqBooks.DropExtra` | linux-3.5/block/cfq-iosched.c:3158-3167 | letting a queue go without following its chain leaves one reference too many on the queue it was to merge into, and nowhere else |
| `CfqBooks.ReleaseExtra` | linux-3.5/block/cfq-iosched.c:2991-3022 | a context that exits leaves no reference too many or too few anywhere on its chain |
| `CfqMerge.NextKeeps` | linux-3.5/block/cfq-iosched.c:2965-3022 | attach, detach, exit, request get and put, sorting in and out, slice start and end, split, merge and setup-merge each keep that invariant |
| `CfqMerge.PutIs` | linux-3.5/block/cfq-iosched.c:2965-2989 | dropping a process reference passes all four BUG_ON tests, and frees the queue exactly with its last reference |
| `CfqMerge.RemoveSortedKeeps` | linux-3.5/block/cfq-iosched.c:1975-1995 | taking a request off the sort list leaves no empty queue on the round robin but the one being served |
| `CfqMerge.ExpireKeeps` | linux-3.5/block/cfq-iosched.c:2057-2103 | the end of a slice takes an empty queue off the round robin and keeps the invariant |
| `CfqMerge.SetupMergeKeeps` | linux-3.5/block/cfq-iosched.c:2454-2494 | scheduling a merge keeps references funded and creates no cycle, in either direction it may choose |
| `CfqMerge.MergeDirection` | linux-3.5/block/cfq-iosched.c:2475-2494 | a merge is scheduled exactly if both queues and the end of the chain have process references and the queue is not itself on that chain; the one with no more process references points to the other, which gains exactly that many references; nothing else changes |
| `CfqMerge.ExitKeeps` | linux-3.5/block/cfq-iosched.c:3012-3022 | dropping a context drops one reference along the whole chain and keeps the invariant |
| `CfqMerge.SplitKeeps` | linux-3.5/block/cfq-iosched.c:3776-3792 | breaking a queue apart keeps the invariant, whether or not this was the last process |
| `CfqMerge.MergeKeeps` | linux-3.5/block/cfq-iosched.c:3761-3770 | moving a context on to the queue it merges into keeps the invariant |
| `CfqMerge.DropKeeps` | linux-3.5/block/cfq-iosched.c:3158-3167 | a cgroup change, which drops the sync queue but not its chain, keeps the invariant |
| `CfqMerge.SetRequestKeeps` | linux-3.5/block/cfq-iosched.c:3796-3846 | cfq_set_request with break-up, allocation and merge keeps the invariant and always finds a live queue |
| `CfqMerge.PutRequestKeeps` | linux-3.5/block/cfq-iosched.c:3742-3759 | freeing a request keeps the invariant and frees the queue only with its last reference |
| `CfqMerge.GetSharedKeeps` | linux-3.5/block/cfq-iosched.c:3257-3275 | sharing an asynchronous queue keeps the invariant |
| `CfqMerge.ChainDistinct` | linux-3.5/block/cfq-iosched.c:2468-2473 | a chain that ends never visits a queue twice |
| `CfqMerge.PutAllBooks` | linux-3.5/block/cfq-iosched.c:2999-3009 | dropping one reference from each queue of a chain keeps the books balanced at every step of the walk |
| `CfqQueues.Queues.PutQueue` | linux-3.5/block/cfq-iosched.c:2965-2989 | the in-place put, with its four BUG_ON tests and the end of the slice between them, is the model's |
| `CfqQueues.Queues.SliceExpired` | linux-3.5/block/cfq-iosched.c:2091-2097 | the in-place end of a slice, as far as the round robin and the active queue go, is the model's |
| `CfqQueues.Queues.PutCooperators` | linux-3.5/block/cfq-iosched.c:2991-3010 | the chain-walking loop that frees as it goes drops exactly one reference from every queue of the chain |
| `CfqQueues.Queues.SetupMerging` | linux-3.5/block/cfq-iosched.c:2454-2494 | the chain-walking loop finds the end of the chain, or the loop it must not close, and links as the model does |
| `CfqGroups.TreeSafe` | linux-3.5/block/cfq-iosched.c:1187-1246 | after every run of joins, leaves, charges to any group on the tree, choices and weight changes: the groups on the service tree are those with queues, the cached first node is the first or absent, total_weight is the sum of the weights on the tree, and no BUG_ON fires |
| `CfqGroups.QueueAddKeeps` | linux-3.5/block/cfq-iosched.c:1197-1220 | a first queue puts the group behind the last and keeps that invariant |
| `CfqGroups.QueueDelKeeps` | linux-3.5/block/cfq-iosched.c:1230-1246 | a last queue takes the group off and keeps that invariant |
| `CfqGroups.ServedKeeps` | linux-3.5/block/cfq-iosched.c:1296-1300 | charging any group on the tree, with a pending weight taken over, keeps that invariant |
| `CfqWeights.NewWeightCounts` | linux-3.5/block/cfq-iosched.c:1177-1195 | a new weight leaves the old one in force through any run that neither serves the group, joins it to the tree nor weighs it again; the next charge is still scaled by the old weight, and from then on, or from the next join, the new one is the weight and none is pending |
| `CfqWeights.ServeTakesOver` | linux-3.5/block/cfq-iosched.c:1280-1300 | a charge advances the time by the charge times 2048000 over the old weight, in 64 bits, and takes a pending weight over |
| `CfqWeights.JoinTakesOver` | linux-3.5/block/cfq-iosched.c:1187-1220 | a group that joins the tree takes a pending weight over |
| `CfqOrder.DiffIs` | linux-3.5/block/cfq-iosched.c:1143-1147 | the signed 64-bit difference of two wrapped times is their true difference while they are less than 2^63 apart, and negative from there to 2^64 |
| `CfqOrder.TreeInOrder` | linux-3.5/block/cfq-iosched.c:1149-1246 | over every run of joins, leaves, charges, choices and weight changes, while true times stay within 2^63 of min_vdisktime: the tree is in the order of the unwrapped vdisktimes, and the group chosen next is one that is furthest behind |
| `CfqOrder.NextTimed` | linux-3.5/block/cfq-iosched.c:1149-1300 | each of those operations keeps that order, keeps every group at or past min_vdisktime, and updates times and min_vdisktime as unbounded integers would be |
| `CfqOrder.LinkedInOrder` | linux-3.5/block/cfq-iosched.c:1149-1175 | a group less than 2^64 ahead is linked in order if and only if it is less than 2^63 ahead or alone on the tree |
| `CfqOrder.ChooseLeast` | linux-3.5/block/cfq-iosched.c:2600-2616 | the group chosen through the cached node is one that is furthest behind in true time, and min_vdisktime becomes its time |
| `CfqOrder.JoinsLast` | linux-3.5/block/cfq-iosched.c:1197-1220 | a group that gets its first queue becomes the last of the tree, CFQ_IDLE_DELAY (200) after the one that was last in true time, or starts at min_vdisktime if it is alone |
| `CfqFairness.TurnFair` | linux-3.5/block/cfq-iosched.c:1280-1300 | if all groups are within K of each other and the charge is at most K, they are within K after the turn, wrap-around included |
| `CfqFairness.FairRun` | linux-3.5/block/cfq-iosched.c:2600-2627 | over any run of turns and weight changes the spread stays within K, and each group's time advances by exactly its charges |
| `CfqFairness.ServiceWithin` | linux-3.5/block/cfq-iosched.c:1280-1300 | the virtual service of any two groups over any such run differs by at most 2K |
| `CfqFairness.ScaleBounds` | linux-3.5/block/cfq-iosched.c:850-857 | a scaled charge times the weight is the charge times 4096 * 500, rounded down by less than the weight |
| `CfqFairness.SharesByWeight` | linux-3.5/block/cfq-iosched.c:850-857 | with fixed weights, service divided by weight differs between two groups by at most 2K plus one unit of rounding per charge |
| `CfqTree.GroupTree.FindPlace` | linux-3.5/block/cfq-iosched.c:1149-1175 | the search finds the place behind every group whose key is no larger |
| `CfqTree.GroupTree.ServiceTreeAdd` | linux-3.5/block/cfq-iosched.c:1177-1195 | the in-place insertion is the model's, weight update and cached first node included |
| `CfqTree.GroupTree.ServiceTreeDel` | linux-3.5/block/cfq-iosched.c:1222-1228 | the in-place removal is the model's |
| `CfqTree.GroupTree.NotifyQueueAdd` | linux-3.5/block/cfq-iosched.c:1197-1220 | a group joins the tree exactly with its first queue; the invariant holds |
| `CfqTree.GroupTree.NotifyQueueDel` | linux-3.5/block/cfq-iosched.c:1230-1246 | a group leaves the tree exactly with its last queue; the invariant holds |
| `CfqTree.GroupTree.ChooseGroup` | linux-3.5/block/cfq-iosched.c:2600-2616 | the group served is the first of the tree, or none if the tree is empty |
| `CfqTree.GroupTree.GroupServed` | linux-3.5/block/cfq-iosched.c:1296-1300 | the in-place charge is the model's; the invariant holds |
| `ThrottleRate.BytesBounded` | linux-3.5/block/blk-throttle.c:467-523 | over every run from the first slice start S0, bytes let through times HZ is at most bps * (t - S0 + throtl_slice), across trims, extensions and restarts |
| `ThrottleRate.IosBounded` | linux-3.5/block/blk-throttle.c:525-573 | the same bound for the number of bios and iops |
| `ThrottleRate.NextKeeps` | linux-3.5/block/blk-throttle.c:627-676 | every offer and every look keeps the invariant behind the two bounds, if no product leaves 64 bits |
| `ThrottleRate.PaidRestart` | linux-3.5/block/blk-throttle.c:429-438 | a new slice writes off what the idle time since the last dispatch pays for |
| `ThrottleRate.PaidDispatch` | linux-3.5/block/blk-throttle.c:575-615 | a bio within the limit is paid for by the time up to one slice after now |
| `ThrottleRate.PaidTrim` | linux-3.5/block/blk-throttle.c:467-523 | a trim moves to the past no more than the time it removes allows |
| `ThrottleExact.BytesExact` | linux-3.5/block/blk-throttle.c:575-601 | with nothing wrapping, a bio is within the byte limit if and only if (bytes sent + size) * HZ <= bps * e, for e the least positive multiple of throtl_slice at or past the elapsed time |
| `ThrottleExact.IosExact` | linux-3.5/block/blk-throttle.c:525-561 | with nothing wrapping, a bio is within the request limit if and only if (bios sent + 1) * HZ <= iops * e |
| `ThrottleExact.BytesWaitIs` | linux-3.5/block/blk-throttle.c:603-615 | the wait of a refused bio is the time up to e plus the whole jiffies, at least one, that the bytes beyond the limit take at bps |
| `ThrottleExact.BytesWaitEnough` | linux-3.5/block/blk-throttle.c:575-615 | looked at in the same slice any time after that wait, the bio is within the byte limit |
| `ThrottleExact.IosWaitIs` | linux-3.5/block/blk-throttle.c:563-573 | the wait of a refused bio ends one jiffy past the whole jiffies that the bios sent and this one take at iops |
| `ThrottleExact.IosWaitEnough` | linux-3.5/block/blk-throttle.c:525-573 | looked at in the same slice at or after the end of that wait, the bio is within the request limit |
| `ThrottleExact.FreshGoes` | linux-3.5/block/blk-throttle.c:627-676 | with no slice running or a fresh one, a bio may go at once if and only if size * HZ <= bps * throtl_slice and HZ <= iops * throtl_slice |
| `ThrottleExact.SliceLasts` | linux-3.5/block/blk-throttle.c:640-676 | after any verdict the slice covers now and at least one throtl_slice beyond, for a refused bio its whole wait, and no slice is extended by more than that asks for; after a bio went out it ends less than two slices from now |
| `ThrottleExact.RefusalWait` | linux-3.5/block/blk-throttle.c:644-676 | a bio may go if and only if it is within both limits; else its wait is exactly that of the limit that refuses it, bytes looked at first |
| `ThrottleExact.RefusedWhenUsed` | linux-3.5/block/blk-throttle.c:575-676 | a refusal means that what is on the books and this bio are together more bytes, or more bios, than one slice allows |
| `ThrottleExact.TrimIs` | linux-3.5/block/blk-throttle.c:467-523 | a trim moves the start by whole slices that have passed, all of them or none, none only if they pay for less than a byte and a bio; bytes and bios sent drop by what the time removed pays for, rounded down, or to zero |
| `ThrottleExact.TrimCosts` | linux-3.5/block/blk-throttle.c:467-523 | a bio within the byte limit before a trim that wiped nothing out is, after it, within the limit up to less than one byte |
| `ThrottleSlice.Slice.Trim` | linux-3.5/block/blk-throttle.c:467-523 | the in-place trim is the model's |
| `ThrottleSlice.Slice.WithinBps` | linux-3.5/block/blk-throttle.c:575-615 | the byte limit test in place gives the model's verdict and wait; if nothing wraps, the bio is within the limit if and only if bytes sent plus its size, times HZ, are at most bps times the least positive multiple of throtl_slice that covers the time since the slice start |
| `ThrottleSlice.Slice.WithinIops` | linux-3.5/block/blk-throttle.c:525-573 | the request limit test in place gives the model's verdict and wait; if nothing wraps, the bio is within the limit if and only if bios sent plus one, times HZ, are at most iops times that multiple |
| `ThrottleSlice.Slice.May` | linux-3.5/block/blk-throttle.c:627-676 | tg_may_dispatch in place gives the model's verdict, wait and slice |
| `ThrottleSlice.Slice.Offer` | linux-3.5/block/blk-throttle.c:1154-1181 | a bio offered is judged, charged and trimmed for as in one step of the bounded runs |
| `ThrottleQueue.RefusalStands` | linux-3.5/block/blk-throttle.c:627-676 | a refusal comes with a positive wait and is repeated until the clock moves on, whatever extension it made |
| `ThrottleQueue.EnqueueKeeps` | linux-3.5/block/blk-throttle.c:381-394 | putting a group on the tree keeps counts, dispatch-time order, cached first node and first-in-first-out order |
| `ThrottleQueue.DequeueKeeps` | linux-3.5/block/blk-throttle.c:396-406 | taking a group off the tree keeps them |
| `ThrottleQueue.AddBioKeeps` | linux-3.5/block/blk-throttle.c:715-726 | queueing a bio keeps every count and the arrival order |
| `ThrottleQueue.PassKeeps` | linux-3.5/block/blk-throttle.c:1154-1181 | a bio let through at once keeps the arrival order, since none of its group and direction was waiting |
| `ThrottleQueue.DispatchOneKeeps` | linux-3.5/block/blk-throttle.c:748-766 | letting a bio through keeps every count and the order, and its BUG_ON cannot fire |
| `ThrottleData.Throttle.EnqueueTg` | linux-3.5/block/blk-throttle.c:353-394 | the search and insertion in place are the model's |
| `ThrottleData.Throttle.DequeueTg` | linux-3.5/block/blk-throttle.c:334-340 | the removal in place is the model's |
| `ThrottleData.Throttle.RbFirst` | linux-3.5/block/blk-throttle.c:313-326 | the group found through the cache is the first of the tree, and has bios queued |
| `ThrottleData.Throttle.MayDispatch` | linux-3.5/block/blk-throttle.c:627-676 | the head of a list is judged as by the model, its slice updated, and nothing else changes |
| `ThrottleData.Throttle.FindWait` | linux-3.5/block/blk-throttle.c:728-740 | both heads are judged, and the shorter of their waits is found |
| `ThrottleData.Throttle.UpdateDispatchTime` | linux-3.5/block/blk-throttle.c:728-746 | the group is back on the tree with dispatch time exactly now plus the shorter wait of its two heads; no other group changes |
| `ThrottleData.Throttle.DispatchOneBio` | linux-3.5/block/blk-throttle.c:748-766 | exactly the head of one list goes out; nothing else changes but its counts and slice |
| `ThrottleData.Throttle.DispatchLane` | linux-3.5/block/blk-throttle.c:775-796 | n bios go out: they are the first n of the list, appended to the output in order, n is at most the maximum, and if it is less the new head has to wait |
| `ThrottleData.Throttle.DispatchGroup` | linux-3.5/block/blk-throttle.c:768-799 | the count is what went out: at most six reads and two writes, each a prefix of its old list, reads first; after fewer reads than six the new first read has to wait, and likewise for writes |
| `ThrottleData.Throttle.DispatchFirst` | linux-3.5/block/blk-throttle.c:808-822 | one round takes the group off, dispatches it and puts it back if bios are left; the output grows by exactly the count |
| `ThrottleData.Throttle.SelectDispatch` | linux-3.5/block/blk-throttle.c:801-830 | the loop ends with the model's state; the output grew by exactly the count, which is below 40; 32 bios went out or no group is due; nothing arrived, was lost or overtook |
| `ThrottleRuns.SelectGoes` | linux-3.5/block/blk-throttle.c:801-830 | the recursion over due groups ends, and keeps counts, order and arrivals |
| `ThrottleRuns.RoundGoes` | linux-3.5/block/blk-throttle.c:808-822 | a round that lets nothing through leaves one due group fewer |
| `ThrottleRuns.UpdateGoes` | linux-3.5/block/blk-throttle.c:728-746 | a group whose heads both have to wait is due later than now |
| `ThrottleRuns.MinWaitLeast` | linux-3.5/block/blk-throttle.c:728-740 | the wait a group is queued for is that of one of its two heads, and neither waits shorter |
| `ThrottleRuns.SubmitGoes` | linux-3.5/block/blk-throttle.c:1149-1209 | a bio is throttled exactly if bios of its group and direction wait or its slice refuses it; else it goes out at once |
| `ThrottleData.Throttle.Drain` | linux-3.5/block/blk-throttle.c:1214-1234 | the loop ends with tree, lists and counts empty, and every bio ever submitted is out, each group's and direction's in arrival order |
| `ThrottleData.Throttle.ThrotlBio` | linux-3.5/block/blk-throttle.c:1149-1209 | the new state is the model's; the bio is throttled exactly if others of its group and direction wait or its slice refuses it, and is then queued behind them; else it is the last of the output |
| `ThrottleData.Throttle.LetPass` | linux-3.5/block/blk-throttle.c:1163-1181 | a bio within the limit is charged, the slice trimmed, and it is the last of the output |
| `ThrottleData.Throttle.Refuse` | linux-3.5/block/blk-throttle.c:1183-1198 | a refused bio is queued, the slice left as the refusal extended it, and the group's dispatch time set |
| `ThrottleData.Throttle.NextDispatch` | linux-3.5/block/blk-throttle.c:408-426 | work is scheduled exactly when bios are queued, for exactly when the earliest group is due or at once if it is overdue, and the BUG_ON cannot fire |
| `ThrottleBound.OutBytesBounded` | linux-3.5/block/blk-throttle.c:467-523 | over every run of submissions, dispatch rounds and ticks from a slice start S0: the bytes of one group and direction in the output times HZ are at most bps * (t - S0 + throtl_slice) |
| `ThrottleBound.OutIosBounded` | linux-3.5/block/blk-throttle.c:525-573 | the same for the number of its bios in the output and iops |
| `ThrottleBound.FirstBioStartsSlice` | linux-3.5/block/blk-throttle.c:627-640 | a bio submitted to an idle group whose slice is used up starts such a slice: it is treated as if the slice had been restarted just before |
| `ThrottleBound.FreshGoesOut` | linux-3.5/block/blk-throttle.c:1149-1209 | a bio submitted to an idle group with a fresh slice, or none running, is throttled if and only if it exceeds what one slice allows of bytes or bios; else it is the last of the output at once |
| `ThrottleBound.ThrottledWhenUsed` | linux-3.5/block/blk-throttle.c:1149-1209 | over every run from a slice start: a bio submitted to a group with none waiting is throttled only if it and what went out since are together more bytes, or more bios, than one slice of the limits allows |
| `ThrottleBound.OfferMeter` | linux-3.5/block/blk-throttle.c:575-676 | each bio let through is paid for by the time since the slice start |
| `ThrottleBound.RunKept` | linux-3.5/block/blk-throttle.c:801-830 | every submission and every dispatch round keeps what went out of a watched group and direction paid for |
| `ThrottleBound.Fits` | linux-3.5/block/blk-throttle.c:575-615 | if bps times the time up to two slices from now stays below 2^64, no product or sum of the tests leaves its width |
| `ThrottleData.Throttle.constructor` | linux-3.5/block/blk-throttle.c:1243-1258 | with idle groups the invariant holds |
| `Scatterlist.EntriesBounded` | linux-3.5/block/blk-merge.c:117-170 | whatever sequence of bio merges, request merges, refusals and recounts built a request, mapping it needs at most nr_phys_segments entries |
| `Scatterlist.BuiltOk` | linux-3.5/block/blk-merge.c:202-315 | every request so built has a split of its vectors into nr_phys_segments allowed segments whose outer ones are no longer than recorded |
| `Scatterlist.MapSg` | linux-3.5/block/blk-merge.c:117-170 | the loop writes at most nr_phys_segments entries, and they describe exactly the request's bytes in order; an entry made of several vectors is no longer than max_segment_size and, for a boundary of a power of two, lies within one boundary block if and only if no empty vector at a block start parts its bytes; with no vector empty, no list of allowed entries over the same vectors is shorter |
| `Scatterlist.MapExact` | linux-3.5/block/blk-merge.c:133-169 | with no vector empty, what the mapping loop leaves is an allowed split into contiguous runs that fit size and boundary, in plain division by the boundary, and no allowed split is shorter |
| `SegmentShape.PieceExact` | linux-3.5/block/blk-merge.c:136-143 | the pairwise tests of the loops accept a run of vectors if and only if it is one vector, or the queue clusters, the vectors are contiguous in memory, their sum is at most max_segment_size and first and last byte are in the same boundary block |
| `SegmentShape.WholeIff` | linux-3.5/block/blk-merge.c:136-143 | with empty vectors too: what the pairwise tests let share an entry lies within one boundary block if and only if no empty vector at the start of a block has bytes before and behind it |
| `SegmentShape.SplitExact` | linux-3.5/block/blk-merge.c:133-169 | so the splits of the loops are exactly the lists of such runs |
| `SegmentShape.EmptyVectorCrosses` | linux-3.5/block/blk-merge.c:136-143 | a concrete run with an empty vector in its middle that the pairwise tests accept across a boundary |
| `SegmentShape.RecountExact` | linux-3.5/block/blk-merge.c:12-69 | the recount stands for a split into contiguous runs no longer than max_segment_size, whole unless parted by an empty vector at a block start, with every page above the bounce limit in a run of its own; the recorded outer sizes are raised to those of its outer runs; with no vector empty, no such split has fewer runs than the count |
| `SegmentShape.BioTaken` | linux-3.5/block/blk-merge.c:202-275 | a bio is merged, at either end, exactly if sectors and segments together fit the limits |
| `SegmentShape.RequestTaken` | linux-3.5/block/blk-merge.c:277-315 | requests are merged exactly if sectors fit and segments do, with one fewer exactly if the ends abut in memory within one boundary block and their recorded outer sizes fit one segment |
| `SegmentShape.SameBlock` | linux-3.5/include/linux/bio.h:129-132 | or-ing two addresses with the boundary mask gives the same number if and only if they are in the same block of the boundary |
| `Scatterlist.MappedStep` | linux-3.5/block/blk-merge.c:133-169 | each vector lengthens the last entry or starts a new one, and the bytes described stay those of the vectors so far |
| `Scatterlist.RecalcSegments` | linux-3.5/block/blk-merge.c:12-69 | the nested loops compute the count and the outer sizes of the recount specification |
| `Segments.GreedyOptimal` | linux-3.5/block/blk-merge.c:133-169 | no allowed split of the vectors has fewer segments than the greedy one, in the mapping loop and, with pages above the bounce limit kept apart, in the recount |
| `Segments.CountMono` | linux-3.5/block/blk-merge.c:136-146 | starting with a shorter current entry never needs more entries |
| `Segments.TrackAll` | linux-3.5/block/blk-merge.c:27-60 | the recount always corresponds to an allowed split, with the recorded front size the larger of the old one and its first segment, and the back size at least its last segment |
| `Segments.RecountSound` | linux-3.5/block/blk-merge.c:76-85 | a recounted bio or request is sound in that sense, whatever sizes it had recorded before |
| `Segments.SoundJoin` | linux-3.5/block/blk-merge.c:297-304 | two sound lists whose outer segments may be joined give a sound list with one segment fewer |
| `Segments.BackMergeOk` | linux-3.5/block/blk-merge.c:228-250 | a back merge keeps a request sound and appends the bio's vectors |
| `Segments.FrontMergeOk` | linux-3.5/block/blk-merge.c:252-275 | a front merge keeps a request sound and prepends the bio's vectors |
| `Segments.MergeRequestsOk` | linux-3.5/block/blk-merge.c:277-315 | a request merge keeps soundness, with one segment fewer exactly when the ends are contiguous, and concatenates the vectors |
| `Segments.RefusedOk` | linux-3.5/block/blk-merge.c:277-310 | a refused request merge leaves both requests sound although it may have changed recorded sizes |
| `Segments.BioRefusedOk` | linux-3.5/block/blk-merge.c:242-250 | a refused bio leaves the request sound although a bio may have been counted |
| `Segments.RecalcRequestOk` | linux-3.5/block/blk-merge.c:71-74 | recounting a request makes it sound |
| `Completion.UpdateTwice` | linux-3.5/block/blk-core.c:2251-2346 | completing a and then c bytes ends the same bios in the same order with the same errors and leaves the same bytes, length and flags as completing a + c; positions agree exactly when the two sector remainders do not carry |
| `Completion.CompletedInOrder` | linux-3.5/block/blk-core.c:2251-2346 | under any sequence of completions the length stays the sum of the remaining bios, the request-botched repair never fires, the bytes left are the last ones, and every bio is ended once, in order, all of them when all bytes are done |
| `Completion.UpdateKeeps` | linux-3.5/block/blk-core.c:2301-2346 | one completion keeps the length exact, drops exactly the completed bytes from the front, and asks for more exactly when bytes remain |
| `Completion.ConsumeEnds` | linux-3.5/block/blk-core.c:2252-2260 | exactly the bios that lie wholly within the completed bytes are ended: with the error of the call if it has one, else with 5 (EIO) if the bio had failed before, else with 0 |
| `Completion.ConsumeBytes` | linux-3.5/block/blk-core.c:2252-2299 | the bytes remaining are those after the completed ones |
| `Completion.ConsumeTwice` | linux-3.5/block/blk-core.c:2252-2326 | two completions of the bio list compose |
| `Completion.WalkDrops` | linux-3.5/block/blk-core.c:2262-2287 | the index walk over vectors, with its final trim, leaves exactly the vectors less the completed bytes, and never runs past the last vector |
| `CompletionPlace.StaysPlaced` | linux-3.5/block/blk-core.c:2325-2339 | over any sequence of completions in whole sectors: while bytes are left the request starts at the sector of its first bio, ends where it did, its bios lie one behind the other, and its failfast flags are the first bio's if attributes are mixed, else what they were |
| `CompletionErrors.EndedHonestly` | linux-3.5/block/blk-core.c:153-179 | over any sequence of completions, a bio of a request ends with 0 if and only if it was good to begin with and every call that completed any byte of it reported 0; else with the error of the call that finished it, or 5 (EIO) if that call reported none |
| `CompletionErrors.CallEnds` | linux-3.5/block/blk-core.c:2251-2301 | one completion ends exactly the bios it covers; of the others it marks failed exactly the one it reached into, if it reports an error |
| `CompletionRequest.BlockRequest.BioEndio` | linux-3.5/block/blk-core.c:153-179 | a bio is ended exactly when its last byte is done and it is not part of a flush sequence: with the error given, or 5 (EIO) if that is 0 and the bio failed before, else with 0 |
| `CompletionRequest.BlockRequest.EndBios` | linux-3.5/block/blk-core.c:2251-2301 | the loop stops at the point inside the first remaining bio where the completed bytes end; its complaint about missing vectors never fires |
| `CompletionRequest.BlockRequest.AdvanceBio` | linux-3.5/block/blk-core.c:2319-2326 | the partial bio is shortened, advanced and trimmed as specified |
| `CompletionRequest.BlockRequest.UpdateState` | linux-3.5/block/blk-core.c:2325-2346 | length, sector, failfast flags and the botched repair are updated as specified |
| `CompletionRequest.BlockRequest.UpdateRequest` | linux-3.5/block/blk-core.c:2204-2352 | blk_update_request in place is the specification, on every request with data, byte count and error |
| `DeadlineIndices.IndicesAgree` | linux-3.5/block/deadline-iosched.c:84-220 | after every run, per direction: sort list and fifo hold the same requests, the one by sector, the other by expiry; at most one next_rq is set and is still queued; no request is lost or dispatched twice; no BUG_ON fires |
| `DeadlineIndices.DrainEmpties` | linux-3.5/block/elevator.c:542-549 | forced dispatch ends, with both directions empty and nr_sorted zero |
| `DeadlineIndices.DispatchKeeps` | linux-3.5/block/deadline-iosched.c:243-325 | a dispatch takes out exactly one request if any is queued, else nothing, and keeps the indices in agreement |
| `DeadlineIndices.AddKeeps` | linux-3.5/block/deadline-iosched.c:98-111 | adding a request keeps them in agreement |
| `DeadlineIndices.FrontKeeps` | linux-3.5/block/deadline-iosched.c:154-166 | a front merge, which moves a request to an earlier sector without touching next_rq, keeps them in agreement |
| `DeadlineIndices.MergeKeeps` | linux-3.5/block/deadline-iosched.c:168-188 | a request merge keeps them in agreement and next_rq off the merged request |
| `DeadlineIndices.MoveKeeps` | linux-3.5/block/deadline-iosched.c:204-220 | moving a request to the dispatch queue keeps them in agreement |
| `DeadlineIndices.TakesPlace` | linux-3.5/block/deadline-iosched.c:176-188 | moving the surviving request behind the merged one and removing that one puts it in its fifo place |
| `DeadlineIndices.ReplaceKeepsOrder` | linux-3.5/block/deadline-iosched.c:176-181 | with the earlier expiry taken over, the fifo stays in expiry order |
| `DeadlineIndices.RbAddKeeps` | linux-3.5/block/elevator.c:292-310 | insertion keeps the list in sector order and adds just the one request |
| `DeadlineStarvation.WritesNotStarved` | linux-3.5/block/deadline-iosched.c:243-325 | while a write is queued at most (writes_starved + 1) * max(1, fifo_batch) requests are dispatched before a write is, whatever is added and merged meanwhile |
| `DeadlineStarvation.BypassCosts` | linux-3.5/block/deadline-iosched.c:253-294 | each dispatch that passes a waiting write uses up one of the reads still allowed |
| `DeadlineStarvation.ReadsNotStarved` | linux-3.5/block/deadline-iosched.c:243-325 | with writes_starved positive, while a read is queued at most 2 * max(1, fifo_batch) requests are dispatched before a read is |
| `DeadlineStarvation.ZeroStarvesReads` | linux-3.5/block/deadline-iosched.c:271-272 | with writes_starved zero, a new batch passes waiting reads whenever a write is queued |
| `DeadlineStarvation.BypassReadsCosts` | linux-3.5/block/deadline-iosched.c:253-294 | with it positive, each dispatch that passes a waiting read uses up one of the writes still allowed |
| `DeadlineExpiry.ExpiredFirst` | linux-3.5/block/deadline-iosched.c:295-310 | a dispatch that starts a new batch takes the oldest request of its direction if that has expired or there is no next by sector, else that next; the batch count is one |
| `DeadlineExpiry.ExpiredServed` | linux-3.5/block/deadline-iosched.c:243-325 | from any reachable state in which the oldest request of a direction has expired, over any run of additions, merges, ticks and dispatches, at most fifo_batch requests of its direction are dispatched before it is |
| `DeadlineExpiry.BatchAscends` | linux-3.5/block/deadline-iosched.c:204-220 | what is next in a direction after a dispatch is the queued request with the least sector at or past the one just dispatched, if there is one, and a running batch takes it |
| `DeadlineExpiry.DispatchServes` | linux-3.5/block/deadline-iosched.c:243-325 | which request a dispatch takes, and the batch count it leaves, in a running and in a new batch, with the oldest request expired or not |
| `DeadlineExpiry.DirectionIs` | linux-3.5/block/deadline-iosched.c:268-294 | a new batch is of reads if and only if a read is queued and either no write is or fewer than writes_starved batches in a row have passed writes over; that count goes up by one just if it passes writes over, and a batch of writes clears it |
| `DeadlineExpiry.RunningIs` | linux-3.5/block/deadline-iosched.c:253-262 | a running batch leaves that count alone |
| `DeadlineExpiry.AddedLast` | linux-3.5/block/deadline-iosched.c:98-111 | an added request is the last of its fifo, and expires its direction's time from now |
| `DeadlineExpiry.MergeIs` | linux-3.5/block/deadline-iosched.c:168-188 | a request merge leaves the survivor with the earlier of both expiry times, moved behind the other request in the fifo before that one leaves it, and nothing else changes there |
| `DeadlineScheduler.Scheduler.RbInsert` | linux-3.5/block/elevator.c:292-310 | the search finds the place of the specification |
| `DeadlineScheduler.Scheduler.RbFind` | linux-3.5/block/elevator.c:321-338 | finds a request at the sector exactly when there is one |
| `DeadlineScheduler.Scheduler.AddRequest` | linux-3.5/block/deadline-iosched.c:98-111 | the in-place insertion is the model's; the indices agree |
| `DeadlineScheduler.Scheduler.RemoveRequest` | linux-3.5/block/deadline-iosched.c:84-122 | the in-place removal, with next_rq moved on, is the model's |
| `DeadlineScheduler.Scheduler.MergedRequest` | linux-3.5/block/deadline-iosched.c:154-166 | the in-place front merge is the model's; the indices agree |
| `DeadlineScheduler.Scheduler.MergedRequests` | linux-3.5/block/deadline-iosched.c:168-188 | the in-place request merge is the model's; the indices agree |
| `DeadlineScheduler.Scheduler.MoveToDispatch` | linux-3.5/block/deadline-iosched.c:204-220 | the in-place move is the model's |
| `DeadlineScheduler.Scheduler.ChooseDirection` | linux-3.5/block/deadline-iosched.c:268-294 | the direction chosen and the starvation count left are the model's |
| `DeadlineScheduler.Scheduler.DispatchRequests` | linux-3.5/block/deadline-iosched.c:243-325 | the in-place dispatch is the model's; one request fewer is queued exactly if some was; in a running batch it is the next by sector, in a new one the head of the fifo if that has expired or there is no next |
| `DeadlineScheduler.Scheduler.DrainElevator` | linux-3.5/block/elevator.c:542-549 | the loop ends with nothing queued |
| `ElevatorOrder.OneWayOrder` | linux-3.5/block/elevator.c:346-384 | for requests of one direction that do not overlap, the unstarted queue is always at-or-past end_sector ascending, then before it ascending, under insertions, peeks and starts in any order; while the head is started, end_sector is its end |
| `ElevatorOrder.InsertInOrder` | linux-3.5/block/elevator.c:359-384 | in any queue, mixed kinds included, insertion keeps the order of the tail it may pass, moves nothing before that, and adds just the request |
| `ElevatorOrder.SlotInTail` | linux-3.5/block/elevator.c:361-381 | the backward scan stops at the place where all before are no later and all after no earlier in one-way order |
| `ElevatorOrder.NeverPasses` | linux-3.5/block/elevator.c:364-373 | an inserted request never passes a barrier, a started request, or one that differs in direction or discard |
| `ElevatorOrder.OrderFollows` | linux-3.5/block/blk-core.c:2046-2049 | moving end_sector to the end of the head keeps the order of the rest exactly when none or all of them start inside the head |
| `ElevatorOrder.PeekKeeps` | linux-3.5/block/blk-core.c:2027-2049 | a peek, first or repeated, keeps the order |
| `ElevatorOrder.OverlapBreaksOrder` | linux-3.5/block/blk-core.c:2046-2049 | a concrete run of overlapping requests after which the order is lost |
| `ElevatorOrder.DispatchQueue.SortedInsertion` | linux-3.5/block/elevator.c:346-384 | the backward loop in place inserts at the specified place |
| `ElevatorOrder.DispatchQueue.PeekRequest` | linux-3.5/block/blk-core.c:2022-2049 | the in-place peek returns the head and updates flag and boundary as specified |
| `ElevatorOrder.DispatchQueue.DequeueRequest` | linux-3.5/block/blk-core.c:2106-2124 | the head leaves the queue, and the boundary stays |
| `MergeLookup.MergesExact` | linux-3.5/block/elevator.c:241-286 | after every run: every request is a gap-free ascending run of like bios of its length, every hashed one is in the bucket of its current end, every mergeable one is hashed, none twice |
| `MergeBios.BiosConserved` | linux-3.5/block/blk-core.c:1453-1468 | over every run of submissions, unplugs and dispatches, merged in any way or not: the bios of the queued requests and of those sent on are together the bios brought, each as often as it was |
| `MergeBios.MergeHeld` | linux-3.5/block/blk-merge.c:427-430 | a request merge neither loses nor doubles a bio |
| `MergeLookup.FindExact` | linux-3.5/block/elevator.c:266-286 | the hash lookup finds a mergeable request ending at the sector exactly when there is one, and dropping stale entries keeps the hash current |
| `MergeLookup.VerdictAdjoins` | linux-3.5/block/elevator.c:406-448 | every verdict of elv_merge names a queued mergeable request of the bio's kind that adjoins it on the side named, for any scheduler whose lookup answers with a request that starts where the bio ends |
| `MergeLookup.LastMergeFirst` | linux-3.5/block/elevator.c:411-434 | last_merge is tried before all other lookups, alone with QUEUE_FLAG_NOXMERGES, and none is tried with QUEUE_FLAG_NOMERGES |
| `MergeLookup.TryMergeAdjoins` | linux-3.5/block/blk-merge.c:503-510 | blk_try_merge answers back or front exactly when they adjoin, unsigned wrap-around included |
| `MergeLookup.QueueBioKeeps` | linux-3.5/block/blk-core.c:1453-1468 | submission of a bio, through any of merge, refusal, neighbour merge or new request, keeps all of that |
| `MergeLookup.InsertMergeKeeps` | linux-3.5/block/elevator.c:457-482 | insertion from a plug list keeps it, merged or not |
| `MergeLookup.MergeRequestsKeeps` | linux-3.5/block/blk-merge.c:367-447 | a request merge, whose survivor's hash place was stale, keeps it |
| `MergeLookup.DispatchKeeps` | linux-3.5/block/elevator.c:391-404 | dispatch keeps it |
| `MergeLookup.BackWhole` | linux-3.5/block/blk-core.c:1304-1324 | a bio put behind a request that ends where it starts leaves a gap-free run |
| `MergeLookup.FrontWhole` | linux-3.5/block/blk-core.c:1326-1354 | a bio put before a request leaves a gap-free run that ends where it did |
| `MergeLookup.JoinWhole` | linux-3.5/block/blk-merge.c:427-430 | joined adjoining requests are a gap-free run ending where the second did |
| `MergeLookup.RehashCurrent` | linux-3.5/block/elevator.c:260-264 | repositioning puts a request in the bucket of its current end, and its BUG_ON cannot fire |
| `MergeElevator.Elevator.RqhashFind` | linux-3.5/block/elevator.c:266-286 | the loop that deletes as it walks gives the answer and the hash specified; a request is found exactly when there is one |
| `MergeElevator.Elevator.RqhashReposition` | linux-3.5/block/elevator.c:260-264 | the in-place reposition is the model's |
| `MergeElevator.Elevator.Merge` | linux-3.5/block/elevator.c:406-448 | elv_merge in place gives the specified verdict, which adjoins the bio, over any such scheduler |
| `MergeElevator.Elevator.AttemptMerge` | linux-3.5/block/blk-merge.c:367-447 | merges exactly when the requests adjoin, are alike and limits allow; the invariant holds |
| `MergeScheduler.StayCoupled` | linux-3.5/block/deadline-iosched.c:124-152 | over every run of submissions, unplugs and dispatches by the deadline scheduler: hash and indices hold the same requests at the same sectors, no BUG is reached on either side, and a lookup by the end of a bio finds a request of its direction that starts there exactly when there is one |
| `MergeScheduler.FrontFound` | linux-3.5/block/elevator.c:321-338 | what elv_rb_find answers is what elv_merge relies on |
| `MergeScheduler.VerdictAdjoins` | linux-3.5/block/elevator.c:406-448 | over the deadline scheduler every verdict adjoins the bio, with nothing assumed of the lookup |
| `MergeScheduler.NoneMissed` | linux-3.5/block/elevator.c:406-448 | if no request that adjoins the bio is barred from taking it, a merge is refused exactly when no request adjoins it |
| `MergeScheduler.QueueKeeps` | linux-3.5/block/blk-core.c:1453-1468 | a submission, with the scheduler calls it makes, keeps both sides alike |
| `MergeScheduler.UnplugKeeps` | linux-3.5/block/elevator.c:457-482 | an insertion from a plug list, merged or not, keeps both sides alike |
| `MergeScheduler.SendKeeps` | linux-3.5/block/deadline-iosched.c:243-325 | a dispatch keeps both sides alike |
| `MergeScheduler.Merge` | linux-3.5/block/elevator.c:406-448 | elv_merge in place, with deadline_merge for its front lookup, answers with a request that adjoins the bio |
| `MergeScheduler.Lookup` | linux-3.5/block/deadline-iosched.c:124-152 | the lookup by the end of the bio in place is exact |
| `Tags.TagsSafe` | linux-3.5/block/blk-tag.c:282-309 | after any interleaving by any number of queues: a set bit has exactly one owner, a clear bit a null slot, a started request is in its slot, and none of the code's complaints was made |
| `Tags.NeverOverwritten` | linux-3.5/block/blk-tag.c:360-375 | a started request stays in its slot through every step but its own end |
| `Tags.AsyncReserve` | linux-3.5/block/blk-tag.c:340-355 | in every interleaving an asynchronous request has none of the last two tags of a map of more than two, and only the first of two |
| `Tags.StartTakesFirst` | linux-3.5/block/blk-tag.c:357-375 | a start undisturbed by other queues takes the first clear bit of the request's part of the map, sets it and stores the request, and changes nothing else |
| `Tags.StartFails` | linux-3.5/block/blk-tag.c:360-363 | such a start fails, and changes nothing, if every bit of that part is set |
| `Tags.WinKeeps` | linux-3.5/block/blk-tag.c:360-365 | test-and-set on a clear bit makes its queue the only owner, however stale the scan was |
| `Tags.StoreKeeps` | linux-3.5/block/blk-tag.c:371-373 | the slot written was null, and the tag passes to the request |
| `Tags.EndKeeps` | linux-3.5/block/blk-tag.c:282-291 | ending a request takes its tag back with its slot still its own |
| `Tags.ClearSlotKeeps` | linux-3.5/block/blk-tag.c:293-297 | the slot cleared held the request ended |
| `Tags.ClearBitKeeps` | linux-3.5/block/blk-tag.c:299-309 | the bit cleared was set, with a null slot |
| `IoContext.HintNotGone` | linux-3.5/block/blk-ioc.c:54-83 | in every interleaving the hint of a context never names a destroyed io_cq |
| `IoContext.HintIsTree` | linux-3.5/block/blk-ioc.c:317-343 | with the queue locked, an io_cq of that queue found through the hint is the one in the tree |
| `IoContext.LookupExact` | linux-3.5/block/blk-ioc.c:317-343 | in every interleaving a lookup with the queue locked answers with the io_cq of that context and queue in the tree, by hint or by tree, and with none if and only if there is none |
| `IoContext.SameEntries` | linux-3.5/block/blk-ioc.c:380-396 | tree, context list and queue list agree on every io_cq that no thread is linking or unlinking, each written in a step of its own |
| `IoContext.AllOrNone` | linux-3.5/block/blk-ioc.c:220-233 | a thread that holds both locks of an io_cq finds it in the tree and on both lists, or in none of them: what is taken off a list for destruction is still in the tree |
| `IoContext.NextKeeps` | linux-3.5/block/blk-ioc.c:54-83 | every lock, read and write of lookup, create and destroy keeps the invariant behind the four theorems |
| `IoContext.ListKeeps` | linux-3.5/block/blk-ioc.c:63-65 | writing one list while the other still differs concerns no other thread |
| `IoContext.WriteHintKeeps` | linux-3.5/block/blk-ioc.c:334-336 | writing the hint after the tree was read, without the context lock, is safe while the queue lock is held |
| `IoContext.UnlinkTreeKeeps` | linux-3.5/block/blk-ioc.c:63-65 | removal from the tree concerns no other thread, since it would hold one of the two locks |
| `IoContext.GoneKeeps` | linux-3.5/block/blk-ioc.c:67-73 | once checked or cleared, the hint never names the io_cq again |
| `IoContext.CreateKeeps` | linux-3.5/block/blk-ioc.c:380-396 | creation under both locks keeps the invariant |
| `Anubis.RoundTrip` | linux-3.5/crypto/anubis.c:574-672 | for any round count, any round keys E and D derived from them as in key setup, decryption inverts encryption on every block |
| `Anubis.RoundTripBack` | linux-3.5/crypto/anubis.c:552-569 | encryption inverts decryption as well, so every schedule gives a permutation of the blocks |
| `Anubis.RoundsMirror` | linux-3.5/crypto/anubis.c:594-623 | after r rounds of decryption the state is the substituted state of encryption R - 1 - r rounds in |
| `Anubis.RoundUndoes` | linux-3.5/crypto/anubis.c:594-623 | a round with a derived key undoes the round with the key it was derived from |
| `Anubis.InverseTwice` | linux-3.5/crypto/anubis.c:552-569 | deriving the inverse schedule twice gives the schedule back |
| `Anubis.RoundIs` | linux-3.5/crypto/anubis.c:594-618 | a table round is substitution and transposition, then diffusion, then key addition |
| `Anubis.LastRoundIs` | linux-3.5/crypto/anubis.c:629-652 | the masked last round is a round without diffusion |
| `Anubis.DiffuseLinear` | linux-3.5/crypto/anubis.c:552-569 | diffusion of an exclusive or is the exclusive or of the diffusions |
| `Anubis.DiffuseInvolution` | linux-3.5/crypto/anubis.c:552-569 | diffusion is its own inverse |
| `Anubis.SubTransposeInvolution` | linux-3.5/crypto/anubis.c:594-618 | substitution with transposition is its own inverse |
| `AnubisTables.SboxInvolution` | linux-3.5/crypto/anubis.c:320-385 | the substitution box in T4 is its own inverse |
| `AnubisTables.Tables` | linux-3.5/crypto/anubis.c:52-318 | each of the 1024 words of T0 to T3 is the substitution box times a column of the matrix had(1, 2, 4, 6) |
| `AnubisTables.T4Spreads` | linux-3.5/crypto/anubis.c:320-385 | each word of T4 is the substitution box in all four bytes |
| `AnubisTables.T5Multiplies` | linux-3.5/crypto/anubis.c:387-452 | each word of T5 is its index times 1, 2, 6 and 8 |
| `AnubisTables.RoundConstants` | linux-3.5/crypto/anubis.c:454-460 | round constant r is the substitution box of 4r to 4r + 3, packed into a word |
| `AnubisCipher.BytesRoundTrip` | linux-3.5/crypto/anubis.c:574-660 | the two schedules undo each other on every 16-byte block |
| `AnubisCipher.EvolveInjective` | linux-3.5/crypto/anubis.c:534-549 | no two key states evolve into the same one: each byte of a word reappears in a later word |
| `AnubisCipher.EvolveIs` | linux-3.5/crypto/anubis.c:534-549 | word i of the next key state is the diffusion of the substituted bytes taken from words i, i - 1, i - 2 and i - 3, cyclically, plus the round constant in word 0 |
| `AnubisCipher.KeyStateIs` | linux-3.5/crypto/anubis.c:487-549 | the first key state is the key in words, big end first; each next one is that evolution with the round constant of its round, four more entries of the substitution box |
| `AnubisCipher.LoadIs` | linux-3.5/crypto/anubis.c:574-592 | a block is read in words, big end first |
| `AnubisCipher.KappaInjective` | linux-3.5/crypto/anubis.c:492-549 | two keys of one length that ever share a key state are equal |
| `AnubisCipher.ReadRoundKey` | linux-3.5/crypto/anubis.c:497-527 | the descending loop folds the key state into the specified round key |
| `AnubisCipher.ColumnSelects` | linux-3.5/crypto/anubis.c:497-527 | each word of a round key holds, per byte, the polynomial of a substituted key column in 1, 2, 6 and 8 |
| `AnubisCipher.RoundKeyIs` | linux-3.5/crypto/anubis.c:497-532 | a round key holds these words for the four byte columns of the key state, in order |
| `AnubisCipher.EvolveKey` | linux-3.5/crypto/anubis.c:534-549 | the loops with wrapped index and scratch array leave the specified next key state |
| `AnubisCipher.Context.SetKey` | linux-3.5/crypto/anubis.c:462-572 | a key of 16, 20, .., 40 bytes sets rounds and both schedules as specified, the decryption keys being the inverse schedule; any other is refused and leaves them unchanged |
| `AnubisCipher.Context.Encrypt` | linux-3.5/crypto/anubis.c:662-666 | the block comes back under the decryption keys |
| `AnubisCipher.Context.Decrypt` | linux-3.5/crypto/anubis.c:668-672 | the block comes back under the encryption keys |

## Left out

- `FlushRuns.PostflushDurable`: `blk_abort_flushes` is not an action of the runs; it hands sequenced requests to normal completion on queue teardown, where a request can end without the postflush it asked for.
- Flush requests have at most one bio, as the code asserts; `blkdev_issue_flush` and holding a queue while a flush runs (`flush_queue_delayed`) are not modelled, nor are runs of the queue that only wake the driver.
- `ThrottleRate.BytesBounded`: for a fixed finite limit, without drain or limit change, and while no product or sum of the code leaves 64 bits (32 bits for the bio counter); beyond that the code itself wraps.
- `ThrottleBound.OutBytesBounded`: from a slice start on, and under the condition that the limit times the time since, plus two slices, stays below 2^64 (for bios also below 2^32 - 1 per HZ); a drain or a limit change is not an action of the runs.
- `CfqBooks.BooksExact`: the lost references it counts are those of `check_blkcg_changed`, and of the other places that drop a queue without `cfq_put_cooperator`, which are one action of the runs.
- `CompletionPlace.StaysPlaced`: for completions in whole sectors; `Completion.UpdateTwice` is exact about others.
- `ThrottleExact.BytesExact`: like the other results of `ThrottleExact`, where no product or sum of the test leaves its width; the waits are for a bio looked at again in the same slice, since one looked at after its slice has ended is judged against a new one.
- Throttle statistics, the lookup of a bio's group, unlimited groups passing without the lock, and `throtl_process_limit_change`.
- CFQ queue selection, idling, preemption, think time and the out-of-memory queue; which queues cooperate is left open.
- `CfqFairness.ServiceWithin`: for runs in which each turn goes to the group just chosen and no group joins or leaves; a group that leaves and comes back rejoins behind the last, so no bound holds across that.
- `CfqOrder.TreeInOrder`: while the true times on the tree stay less than 2^63 ahead of min_vdisktime; `CfqOrder.LinkedInOrder` is exact about what happens to a group that gets further ahead.
- `cfq_group_served` for a group that is not on the tree; the queue it is called for is on the round robin, so its group is on the tree.
- The `count` field of the group service tree, which is only ever decremented and is not read.
- `Scatterlist.MapSg`: minimality of the list is for requests without empty vectors; `SegmentShape.EmptyVectorCrosses` is an input with an empty vector for which an entry crosses the boundary, and the condition stated for the shape of an entry is exact. The boundary is a power of two, as all masks of the drivers are.
- Segment counts of discard bios, integrity segments, padding and the drain entry of `blk_rq_map_sg`.
- `MergeScheduler.NoneMissed`: of the schedulers only deadline is joined to the hash; the direction is the lowest bit of the kind of a bio, and the neighbour a scheduler names is left open.
- `MergeLookup.VerdictAdjoins`: lengths are whole sectors; a lookup answers with the first request of the bucket that ends at the sector, so a mergeable one behind an incompatible one that ends at the same sector is missed, in the code as in the model.
- Plug lists: a bio merged on a task's plug list before it reaches the queue.
- Requests requeued by a driver and barriers in the dispatch order; `elv_dispatch_add_tail` there.
- `DeadlineStarvation.WritesNotStarved`: for a non-negative `writes_starved` and `fifo_batch`, and unchanged tunables; a negative one is compared as a large unsigned number by the code.
- `DeadlineStarvation.ReadsNotStarved`: for a positive `writes_starved`; `DeadlineStarvation.ZeroStarvesReads` shows what zero does.
- Tag maps that are resized, and the limit on asynchronous requests in flight, which only makes a start fail early.
- Freeing of an io_cq after its grace period, reference counts of contexts, and freedom from deadlock of the two lock orders.
- The module, driver, accounting, tracing and user-copy code of the repository, other schedulers, and ciphers other than Anubis.
- `Tags` and `IoContext` are state machines over shared data, not classes, since their threads interleave; of the queue-merging code of CFQ, of which only the loops and the put are also written in place, the other operations are on values.
- Update in place of single bios and requests is modelled on values held by the class; aliasing between requests is not.
