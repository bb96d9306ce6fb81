# TriCache: a verified model

TriCache is a user-space page cache with three levels. A per-thread direct cache sits on a per-thread
private cache, which sits on a shared cache divided into partitions, each served by its own thread. This
project models the parts of it whose correctness spans several functions or several threads, and proves what
they are for. `dafny verify dfyconfig.toml` checks everything.

How the parts hang together:

- **One partition.** `PageCache.dfy` gives one turn of the `switch` inside `process` as a function on values.
  `CacheSystem.dfy` makes a transition system of it: any number of pins in flight, direct pins and unpins by
  compare-and-swap, unordered notifications, stores through pinned pointers and device completions interleave
  freely. `CacheInvariant.dfy` states the invariant, `CacheQuiet.dfy`, `CacheRefs.dfy`, `CacheNotes.dfy` and
  `CacheTurns.dfy` show that every kind of step keeps it, `CacheTheorems.dfy`, `CacheAccounting.dfy` and
  `CacheExact.dfy` draw the conclusions, and `CacheProgress.dfy` shows that no number of pins in flight can
  block each other for good.
- **The object.** `PageTable.dfy`, `Clock.dfy` and `SingleThreadCache.dfy` are the mutable objects: the
  chained hash page table, the second-chance policy, and the single-thread cache built from both. The page
  table's `Valid` says that its chains are acyclic and lead to exactly the lines not spare, that tags are
  unique and sit in their own bucket, also behind an emptied head, that `num_using` counts the slots that
  exist or are locked, and that the lines hold exactly the map from pages to entries (`view`); every method
  keeps it and says what becomes of that map. `OneAtATime.dfy` follows a single context through its calls of
  `Process`, what becomes of the table's entries and how many lines it needs; `CacheLines.dfy` does so over
  whole runs. `CacheRefinement.dfy` shows that a call of `Process` is a stretch of a run of the transition
  system, and that in a reachable state it finds what it relies on; of room in the page table this is so while
  contexts are served one at a time and none is refused.
- **The device.** `MemCopy.dfy` is the in-memory back end with its slot pools and deferred transfers;
  `CacheDevice.dfy` shows that what a partition has outstanding is exclusive, and so that running it is a
  stretch of device completions.
- **Entry headers.** `PteHeader.dfy` is one 16-bit header under compare-and-swap by any number of threads;
  `HeaderClients.dfy` shows that clients behind private caches cannot make its count wrap.
- **The mailbox.** `Mailbox.dfy` steps the client/server handshake one shared word at a time, with batching,
  epochs, late answers and reuse of client ids; `MailboxTheorems.dfy` proves it.
- **The upper levels.** `PrivateCache.dfy` and `DirectCache.dfy` are one thread's two levels and the
  integrated cache over them. `Visibility.dfy` joins the levels: threads that reach a partition through
  private caches, whose histories are all that is known of them, see each other's stores. `Capacity.dfy` and
  `AccessRefusal.dfy` settle when the direct cache can run its private cache out of frames; `Power.dfy` and
  `Partitioner.dfy` are the arithmetic underneath.
- **Bytes.** `ByteCopy.dfy` is memcpy and memmove within the cached space, `Allocator.dfy` the block allocator.

Choices a reader should know:

- Selecting a victim (look at the entry, lock it, take its dirty bit) is one server step, and finding a page's
  line and swapping its header is one client step.
- A page id's tag never equals the reserved empty tag.
- The source caches pointers to page-table lines in the request context; the model finds the line again, as
  the source's own assertions say the two coincide.
- Contents of a page are opaque values. A transfer leaves an arbitrary value in its target until it completes.
- The steps of a partition let a client give back a pin it has stored through only with is_write. That is
  derived for threads behind private caches (`Visibility.FaithfulThreadsRun`); other callers must keep to it.
- A matching deallocation passes a size of the same order as the allocation.
- The comment on the direct cache's `access` promises a usable pointer. The code keeps its books only while
  no access is refused: a refused access leaves the slot claiming a page it has not pinned. The contract of
  `DirectCache.Access` says exactly when that happens and what is left.
- An allocator's private free lists are deleted with the thread they belong to, and the source keeps no other
  record of the blocks in them.
- The frame the clock yields when it gives up looking after 1023 places is only a prefetch hint.

## Model

| member | source | states |
|---|---|---|
| CacheTheorems.StepKeeps | include/shared_single_thread_cache.hpp:151-379 | every step of a partition, its clients and its device keeps the invariant tying page table, replacement set, pins, locks, memory and disk together |
| CacheTheorems.RunInv | include/shared_single_thread_cache.hpp:151-379 | every state of every run satisfies that invariant |
| CacheTheorems.Coherence | include/shared_single_thread_cache.hpp:171-379 | whoever holds a pin sees exactly what the page was last given, by a store or an unpin with is_write, however often it was evicted and reloaded since |
| CacheTheorems.SealedSeen | include/shared_cache.hpp:245-346 | while no holder has stored, a pin shows the contents left by the last unpin with is_write |
| CacheTheorems.LockExclusion | include/compact_hash_page_table.hpp:235-319 | a page is busy exactly when a context holds its lock, and then exactly one does |
| CacheTheorems.TransfersApart | include/shared_single_thread_cache.hpp:236-345 | transfers outstanding at the same time touch different blocks and different frames |
| CacheTheorems.ReloadAfterWriteBack | include/shared_single_thread_cache.hpp:307-345 | while a page is being loaded no write-back of it is outstanding, and the device already has its contents |
| CacheTheorems.ReferencesCounted | include/compact_hash_page_table.hpp:36-138 | a page's reference count is the number of pins held and loads in flight; a locked page has no pin handed out |
| CacheTheorems.NoFrameLost | include/shared_single_thread_cache.hpp:151-169 | an unpinned, unlocked resident page is in the replacement set or has an unpin notification in flight |
| CacheTheorems.PinConservation | include/shared_single_thread_cache.hpp:194-245 | pinned_size is the number of pinned pages, less pin notifications and plus unpin notifications in flight; resident pages are as many as frames in use and have different frames |
| CacheTheorems.VictimExists | include/shared_single_thread_cache.hpp:247-275 | a full partition has an acceptable victim whenever the pins counted and those about to be reported leave room |
| CacheTheorems.SkippedReadHidesNothing | include/shared_cache.hpp:296-318 | the disk read is skipped only before the partition's first eviction, and never for a page that was given contents |
| CacheExact.DirtyIff | include/compact_hash_page_table.hpp:73-105 | a page is dirty exactly when a pin of it was given back with is_write since it was last brought in |
| CacheExact.WriteBackIff | include/shared_cache.hpp:245-292 | a victim is written back exactly when it is dirty |
| CacheExact.ReadIff | include/shared_cache.hpp:296-318 | a page is read from the device exactly when it takes the place of another |
| CacheExact.PinnedAnnounced | include/shared_single_thread_cache.hpp:151-169 | a pinned page's frame is in the replacement set only while the news of a pin of it is on its way |
| CacheTheorems.HeldPinsAreBacked | include/shared_cache.hpp:103-176 | the page behind a held pin is resident, unlocked, counted, and in the frame the pin says |
| CacheTheorems.ServeKeeps | include/shared_single_thread_cache.hpp:171-379 | each turn of `process`, in every phase, keeps the invariant |
| CacheQuiet.DeviceWriteKeeps | include/shared_cache.hpp:245-292 | completing a write-back keeps it |
| CacheQuiet.DeviceReadKeeps | include/shared_cache.hpp:296-346 | completing a load keeps it |
| CacheQuiet.EvictPollKeeps | include/shared_single_thread_cache.hpp:309-321 | polling an eviction keeps it |
| CacheRefs.HitKeeps | include/shared_single_thread_cache.hpp:213-235 | a pin of a resident page keeps it |
| CacheRefs.DirectPinKeeps | include/shared_cache.hpp:112-127 | a client's own pin, with its notification, keeps it |
| CacheRefs.DirectUnpinKeeps | include/shared_cache.hpp:164-176 | a client's own unpin, with its notification, keeps it |
| CacheRefs.ServerUnpinKeeps | include/shared_single_thread_cache.hpp:194-212 | an unpin at the server keeps it |
| CacheNotes.DeliverPinKeeps | include/shared_single_thread_cache.hpp:151-159 | a pin notification keeps it, whenever it arrives |
| CacheNotes.DeliverUnpinKeeps | include/shared_single_thread_cache.hpp:161-169 | an unpin notification keeps it, whenever it arrives |
| CacheNotes.StoreKeeps | include/shared_cache.hpp:201-209 | a store through a pinned pointer keeps it |
| CacheTurns.FreeKeeps | include/shared_single_thread_cache.hpp:288-299 | a miss that takes a free frame keeps it |
| CacheTurns.VictimKeeps | include/shared_single_thread_cache.hpp:247-286 | a miss that selects and locks a victim keeps it |
| CacheTurns.EvictedKeeps | include/shared_single_thread_cache.hpp:323-345 | the end of an eviction and start of a load keep it |
| CacheTurns.LoadedKeeps | include/shared_single_thread_cache.hpp:346-371 | the end of a load, which hands out the pin, keeps it |
| CacheAccounting.FrameAccounting | include/shared_single_thread_cache.hpp:120-128 | without direct pins, frames in use are those in the replacement set plus the pinned ones, every frame popped is acceptable at once, and a full cache not full of pins has a victim |
| CacheAccounting.RunExact | include/shared_single_thread_cache.hpp:192-302 | without direct pins the replacement set holds only frames of unpinned pages |
| CacheAccounting.VictimTurnIff | include/shared_single_thread_cache.hpp:247-275 | a miss in a full cache can proceed exactly when some frame in the replacement set is evictable |
| CacheAccounting.DirectPinStarvesServer | include/shared_single_thread_cache.hpp:249-269 | a run with one direct pin in which a full cache, not full of pins, has no victim: the restriction above is needed |
| CacheProgress.LockHolderWorks | include/shared_single_thread_cache.hpp:177-192 | a context that finds its page locked waits for one that is evicting or loading, whose next turn waits for no lock |
| CacheProgress.WorkEnds | include/shared_single_thread_cache.hpp:305-371 | such a context can be brought to its end, its pin handed out, without anything else being disturbed |
| CacheProgress.Unblock | include/shared_single_thread_cache.hpp:177-192 | a page locked is unlocked again without its clients' doing |
| CacheProgress.PinEnds | include/shared_single_thread_cache.hpp:171-379 | in every reachable state between calls every pin in flight can be brought to its end: served, or refused with every frame pinned |
| CacheProgress.AllPinsEnd | include/shared_single_thread_cache.hpp:171-379 | and all of them together, however many, so there is no deadlock; pins handed out stay |
| CacheRefinement.ReachableIsReady | include/shared_single_thread_cache.hpp:171-379 | in a reachable state a context at rest meets what `process` relies on, room in the page table apart; a victim exists when the pins leave room |
| CacheRefinement.ProcessExtendsRun | include/shared_single_thread_cache.hpp:171-379 | a whole call of `process` on a context at rest extends the run, ends with the context settled, and leaves the lines the run says |
| CacheRefinement.EvictsFirstChoice | include/shared_single_thread_cache.hpp:247-286 | in a run without direct pins a call that evicts takes the frame the second-chance rule names and leaves the states that rule leaves |
| CacheRefinement.UnpinExtendsRun | include/shared_single_thread_cache.hpp:194-212 | a call of `process` for an unpin is the transition system's unpin step, with the lines that step leaves |
| CacheRefinement.UnpinIsReady | include/shared_single_thread_cache.hpp:194-212 | and in a reachable state it meets what `process` relies on, room in the page table apart |
| CacheRefinement.ReachableIsPrepared | include/shared_single_thread_cache.hpp:171-379 | in a run that serves contexts one at a time and refuses none, the object is prepared for any context at rest, room for its line included |
| CacheRefinement.RunHasTags | include/compact_hash_page_table.hpp:336-347 | every run determines which tags have lines in each of its states |
| CacheDevice.RequestsExclusive | include/io_backend.hpp:201-231 | the device requests outstanding in any reachable state share no block and no frame |
| CacheDevice.CompletionMirrors | include/shared_cache.hpp:245-346 | carrying out one request on the device's storage is one completion of the transition system, and finishes its context's transfer |
| CacheDevice.DeviceExtendsRun | include/io_backend.hpp:233-271 | carrying out all outstanding requests extends the run by their completions and by nothing else, and every one is finished |
| CacheDevice.RunDevice | include/io_backend.hpp:233-271 | a call of `Progress` by which the pending requests of a reachable state are run is such an extension: storage, finish flags and contexts agree afterwards |
| Replacement.Clock.constructor | include/replacement.hpp:94-99 | a new clock tracks nothing |
| Replacement.Clock.Push | include/replacement.hpp:106-117 | the frame becomes recently used; the count stays the number of tracked frames |
| Replacement.Clock.Access | include/replacement.hpp:139-143 | a tracked frame becomes recently used, the others stay |
| Replacement.Clock.Erase | include/replacement.hpp:145-152 | the frame is no longer tracked, the others stay |
| Replacement.Clock.Sweep | include/replacement.hpp:121-127 | terminates at the first due frame from the hand, or with none due at the first tracked one, having made due exactly the recently used frames it passed |
| Replacement.Clock.Advance | include/replacement.hpp:130-135 | stops at the first due frame from the hand on, or after 1023 frames none of which is due |
| Replacement.Clock.Pop | include/replacement.hpp:119-137 | removes exactly the frame the second-chance rule names, never a recently used one while one is due, leaves the states that rule leaves, and rests the hand at the next due frame |
| Replacement.FirstChoiceUnique | include/replacement.hpp:119-137 | the second-chance rule names at most one frame |
| Replacement.RestsUnique | include/replacement.hpp:130-135 | the rule by which the hand comes to rest names one frame |
| CompactPageTable.CompactHashPageTable.constructor | include/compact_hash_page_table.hpp:164-184 | the new table is empty and all overflow lines are spare |
| CompactPageTable.CompactHashPageTable.FindCacheline | include/compact_hash_page_table.hpp:375-397 | the chain walk finds the line that carries the tag exactly when one does |
| CompactPageTable.CompactHashPageTable.FindCachelineHint | include/compact_hash_page_table.hpp:399-424 | the same walk yields, when there is none, the place after which a new line goes |
| CompactPageTable.CompactHashPageTable.CreateCacheline | include/compact_hash_page_table.hpp:426-454 | the tag gets a line of its own in its own bucket: the bucket's if that is free, else the last spare one; no page's entry changes |
| CompactPageTable.CompactHashPageTable.DeleteCacheline | include/compact_hash_page_table.hpp:456-481 | the line leaves its chain, an overflow line becomes the last spare one; no page's entry changes |
| CompactPageTable.CompactHashPageTable.FindOrCreateHint | include/compact_hash_page_table.hpp:336-347 | the page's tag has a line afterwards, and nothing changes if it had one; no page's entry changes |
| CompactPageTable.CompactHashPageTable.GetPte | include/compact_hash_page_table.hpp:321-334 | returns what the map from pages to entries holds |
| CompactPageTable.CompactHashPageTable.Pin | include/compact_hash_page_table.hpp:191-217 | counts a reference of a resident unlocked page and nothing else, reporting frame and old count; refuses otherwise |
| CompactPageTable.CompactHashPageTable.Unpin | include/compact_hash_page_table.hpp:218-232 | gives back a reference, marks the entry dirty on request, reports the old count |
| CompactPageTable.CompactHashPageTable.CreateMapping | include/compact_hash_page_table.hpp:235-265 | maps an unlocked page, locked and referenced, and counts it in num_using; refuses a locked one unchanged |
| CompactPageTable.CompactHashPageTable.DeleteMapping | include/compact_hash_page_table.hpp:268-296 | unmaps exactly an unreferenced unlocked page, leaving only its lock |
| CompactPageTable.CompactHashPageTable.ReleaseMappingLock | include/compact_hash_page_table.hpp:298-319 | releases the lock, counts an unmapped page out of num_using; the line goes exactly when none of its pages exists or is locked |
| CompactPageTable.SpareLineLeft | include/compact_hash_page_table.hpp:426-454 | with at most as many tags in use as frames, a bucket whose own line is taken finds a spare overflow line, even if all tags collide |
| CompactPageTable.RoomWhenSettled | include/compact_hash_page_table.hpp:164-184 | a settled table always has room for one more page's line |
| CompactPageTable.SettledTags | include/compact_hash_page_table.hpp:336-347 | a settled table has no more tags than frames |
| CompactPageTable.SettledReferences | include/compact_hash_page_table.hpp:191-232 | pins and unpins of a resident page keep a settled table settled |
| CompactPageTable.RoomIff | include/compact_hash_page_table.hpp:336-347 | a page's line can be made exactly when its tag has one, its bucket's own line is free, or fewer overflow lines than frames are in use |
| CompactPageTable.PoolSize | include/compact_hash_page_table.hpp:426-481 | spare overflow lines and those in use are always as many as frames |
| CompactPageTable.RoomWhenFew | include/compact_hash_page_table.hpp:336-347 | with at most as many tags as frames there is room for any line |
| CompactPageTable.NoRoomWhenFull | include/compact_hash_page_table.hpp:426-454 | with a tag on every line there is room for no other |
| OneAtATime.SoleTurn | include/shared_single_thread_cache.hpp:173-379 | a turn of the only context in flight, not refused, leaves every line used by a page, its own apart until it is mapped |
| OneAtATime.SoleAlong | include/shared_single_thread_cache.hpp:171-379 | so does a whole call of `process` |
| OneAtATime.SoleSettled | include/shared_single_thread_cache.hpp:171-379 | before such a context begins and after it ends, that means a settled table, and the other way round |
| OneAtATime.SoleTags | include/shared_single_thread_cache.hpp:177-345 | meanwhile at most one tag more than frames has a line, and none more outside the miss |
| OneAtATime.CallProgress | include/shared_single_thread_cache.hpp:171-379 | each call takes the context nearer its end once its transfer has been flagged |
| OneAtATime.CameTurn | include/shared_single_thread_cache.hpp:173-379 | what each turn of the only context in flight has made of the table it started from, entry by entry |
| OneAtATime.Advance | include/private_cache.hpp:148-158 | one call on the object and the device's part keep the table's entries what the context's phase says they have become since it was made, and bring the end nearer |
| OneAtATime.Drive | include/private_cache.hpp:148-158 | the loop round `process` ends; a pin leaves its page resident, unlocked and pinned once more in the frame reported, every other entry as before but for one unpinned page in that frame, gone if no frame was free; an unpin leaves one pin less and the dirty bit or-ed; from a settled table to a settled table |
| CacheLines.SoloStep | include/shared_single_thread_cache.hpp:151-379 | every step with one context in flight, not refused, keeps every line used |
| CacheLines.RunSolo | include/shared_single_thread_cache.hpp:151-379 | so does every run of such steps |
| CacheLines.FlightIsSole | include/shared_single_thread_cache.hpp:171-379 | the context in flight in such a run is alone in the sense of `OneAtATime` |
| CacheLines.LinesSuffice | include/compact_hash_page_table.hpp:426-454 | in every state of every such run at most one tag more than frames has a line, and there is room for any line at each begin, even if all tags collide |
| CacheLines.RefusedPinLeavesLine | include/shared_single_thread_cache.hpp:177-243 | a pin refused for want of frames leaves the state as it was but for an unused line |
| CacheLines.RefusedPinsExhaust | include/shared_single_thread_cache.hpp:177-243 | a run with one frame in which two refusals use up the overflow lines: the restriction above is needed |
| SingleThreadCache.SharedSingleThreadCache.constructor | include/shared_single_thread_cache.hpp:92-113 | a new cache is the fresh state of the transition system |
| SingleThreadCache.SharedSingleThreadCache.NotifyPin | include/shared_single_thread_cache.hpp:151-159 | changes the object as the transition system's step does; the frame of a pinned page leaves the clock, no other frame's state changes |
| SingleThreadCache.SharedSingleThreadCache.NotifyUnpin | include/shared_single_thread_cache.hpp:161-169 | the same for an unpin notification, which makes the frame of an unpinned page recently used |
| SingleThreadCache.SharedSingleThreadCache.UnpinPhase | include/shared_single_thread_cache.hpp:194-212 | the unpin branch is the unpin turn; with the last pin the frame becomes recently used, no other frame's state changes |
| SingleThreadCache.SharedSingleThreadCache.HitPhase | include/shared_single_thread_cache.hpp:213-235 | the hit branch is the hit turn; with the first pin the frame leaves the clock, no other frame's state changes |
| SingleThreadCache.SharedSingleThreadCache.Alloc | include/shared_single_thread_cache.hpp:450-468 | yields a frame of the cache that backs no page and is not recycled, and adds exactly one to the frames in use |
| SingleThreadCache.NextFrameFree | include/shared_single_thread_cache.hpp:450-468 | while frames are in order and not all in use, the frame next in line is below the capacity and backs no page |
| SingleThreadCache.ReadyNext | include/shared_single_thread_cache.hpp:173-379 | what a turn relies on still holds for the next one |
| SingleThreadCache.SharedSingleThreadCache.SelectVictim | include/shared_single_thread_cache.hpp:249-275 | the pop loop ends at an evictable frame, having dropped only frames that are not; each frame dropped, and the last, is the clock's choice from the states and hand the one before left |
| SingleThreadCache.SharedSingleThreadCache.TryVictim | include/shared_single_thread_cache.hpp:249-275 | pops the clock's choice and unmaps its page exactly when that is neither pinned nor locked |
| SingleThreadCache.FirstChosen | include/shared_single_thread_cache.hpp:249-275 | when every tracked frame can be evicted the victim is the second-chance choice and the states are as that rule leaves them |
| SingleThreadCache.SharedSingleThreadCache.VictimPhase | include/shared_single_thread_cache.hpp:247-286 | a miss in a full cache is a victim turn, its frame chosen by the clock in that way |
| SingleThreadCache.SharedSingleThreadCache.FreePhase | include/shared_single_thread_cache.hpp:288-299 | a miss with a frame free is a free turn |
| SingleThreadCache.SharedSingleThreadCache.ClaimFrame | include/memory_pool.hpp:65-70 | the frame gets its new owner, and counts as loaded from then on |
| SingleThreadCache.SharedSingleThreadCache.EvictedPhase | include/shared_single_thread_cache.hpp:323-345 | the end of an eviction is the transition system's turn |
| SingleThreadCache.SharedSingleThreadCache.LoadingPhase | include/shared_single_thread_cache.hpp:346-371 | so is the loading phase |
| SingleThreadCache.SharedSingleThreadCache.Turn | include/shared_single_thread_cache.hpp:173-379 | one turn of the loop is one turn of the transition system, makes and drops the lines it says, moves the clock as its phase demands and not otherwise, and brings the call nearer its end |
| SingleThreadCache.SharedSingleThreadCache.Process | include/shared_single_thread_cache.hpp:171-379 | a call terminates, is a chain of turns of which only the last returns, leaves exactly the lines that chain makes, and moves the clock turn by turn as the phases demand |
| MemCopyDevice.MemCopy.constructor | include/io_backend.hpp:172-187 | all slots idle, nothing pending |
| MemCopyDevice.MemCopy.ReadBlock | include/io_backend.hpp:217-231 | queues a read exactly while fewer than 4096 reads are pending, or else carries out everything pending; each slot is idle or waiting, never both |
| MemCopyDevice.MemCopy.WriteBlock | include/io_backend.hpp:201-215 | the same for a write |
| MemCopyDevice.MemCopy.RunSlots | include/io_backend.hpp:244-256 | the running slots are carried out in slot order, flagged, and returned as idle, each exactly once |
| MemCopyDevice.MemCopy.Progress | include/io_backend.hpp:233-271 | carries out all pending reads and then all pending writes; for exclusive requests that equals a synchronous store doing them in the order asked; every finish flag is set |
| MemCopyDevice.Pointwise | include/io_backend.hpp:233-271 | exclusive transfers give each target what its source held at the start, and change nothing else |
| MemCopyDevice.OrderFree | include/io_backend.hpp:233-271 | exclusive transfers have the same effect in any order |
| PteHeader.RefCountIsPins | include/compact_hash_page_table.hpp:36-138 | in every interleaving of swaps the count is the number of pins modulo 8192, a lock is grantable exactly when that reads zero and nobody has it, and the entry is dirty exactly when a pin was given back as dirty since the page was mapped |
| PteHeader.LockedAgainstSwaps | include/compact_hash_page_table.hpp:235-296 | while an entry is locked only the holder's unlock can swap, so its plain writes race with nothing |
| PteHeader.CountNeverWraps | include/partition_server.hpp:60-64 | with at most 2048 clients holding one pin each, the count is the number of pins, a locked entry has none, and the assertions of dec_ref_count hold |
| HeaderClients.HistoryCounts | include/compact_hash_page_table.hpp:36-138 | a client's history of a page holds it as often as the header counts a reference for the client |
| HeaderClients.OneReference | include/private_cache.hpp:49-77 | a client that works through a private cache never has more than one reference to a page |
| HeaderClients.ClientsNeverWrap | include/partition_server.hpp:60-64 | so with at most 2048 such clients the count is the number of pins and stays within a quarter of its field, a locked page has no pin and a pinned one stays mapped: no discipline is asked for |
| PteHeader.UnlimitedPinsWrap | include/compact_hash_page_table.hpp:36-71 | without that limit a run reaches 8192 pins that read as none, and the entry can be locked under them |
| PteHeader.InvStep | include/compact_hash_page_table.hpp:49-138 | every load, swap, failed swap and plain write keeps count, lock and dirty mark in step |
| MailboxTheorems.RunInv | include/partition_client.hpp:109-235 | every state of every run of the handshake satisfies its invariant |
| MailboxTheorems.ExactlyOnce | include/partition_server.hpp:359-402 | batches are read whole, once and in order, at most one being outstanding; across batches, clients and reuse of the id the server reads requests in the order made |
| MailboxTheorems.NeverOverwritten | include/partition_type.hpp:80-93 | a request message is written only after every earlier batch was answered and its answers taken; a response only while the client waits |
| MailboxTheorems.SingleAnswer | include/shared_cache.hpp:132-154 | a request is answered through its slot never more than once, exactly once when delivered, and is delivered once its batch response is taken and it is not put off |
| MailboxTheorems.CallerSeesAnswer | include/shared_cache.hpp:136-153 | a non-null pointer seen in a slot is the one answer to the request waited for |
| MailboxTheorems.LateAnswerSeen | include/shared_cache.hpp:425-470 | what the server passes to its late answer of a request is what the caller that made the request reads in its slot, from then until it has taken it |
| MailboxTheorems.BatchAnswerSeen | include/shared_cache.hpp:369-423 | a non-null answer given when the batch is processed is what the caller reads once the response is taken, and nothing else before |
| MailboxTheorems.RequestArrives | include/partition_server.hpp:359-402 | the request the server processes is the one its caller made, code and slot, and is kept as made when put off |
| MailboxTheorems.ThreeToABatch | include/partition_type.hpp:72-79 | three requests fit a batch, and never more |
| MailboxTheorems.OnlyAwaitedSlotsWritten | include/shared_cache.hpp:369-470 | batch responses and late answers write only through slots whose caller still waits on a null pointer for that request; a batch response writes nothing for a late-answered one |
| MailboxTheorems.PollAnswers | include/partition_client.hpp:149-160 | polling for an epoch not yet moved on finds a batch to submit; once it has moved on and nothing is outstanding that epoch's batch was submitted, processed and its response taken |
| MailboxTheorems.StampedAtAsk | include/partition_client.hpp:121-138 | the epoch returned with a request names the batch it will be in |
| MailboxTheorems.NeverStuck | include/partition_client.hpp:149-160 | while a client waits some step of the handshake is possible |
| MailboxTheorems.HandshakeEnds | include/partition_server.hpp:264-278 | each such step brings the handshake nearer its end, in at most 36 steps |
| MailboxTheorems.InvStep | include/partition_client.hpp:75-119 | every step, among them returning and reusing a client id with its saved toggles, keeps the invariant |
| PowersOfTwo.NextPowerOf2 | include/util.hpp:177-188 | the least power of two at or above n for 1 to 2^63, and 0 for 0 and above |
| PowersOfTwo.Smear | include/util.hpp:180-185 | one shift-and-or step doubles the run of leading ones |
| PowersOfTwo.LeastIsLeast | include/util.hpp:177-188 | no smaller power of two will do |
| Partitioner.RoundTrip | include/partitioner.hpp:29-42 | page to place and place to page undo each other |
| Partitioner.DealtInTurn | include/partitioner.hpp:29-37 | pages are dealt to the partitions in turn |
| Partitioner.BlocksFit | include/partitioner.hpp:34-37 | a place names a page of the space exactly when its block is below its partition's num_blocks |
| PrivateCaches.WritesReachShared | include/private_cache.hpp:49-62 | in a faithful history the first release of a page after a write carries the dirty bit |
| PrivateCaches.VictimAtHand | include/shared_single_thread_cache.hpp:247-275 | in a private cache not full of pins the first frame popped is an acceptable victim |
| PrivateCaches.PrivateCache.constructor | include/private_cache.hpp:94-108 | holds no shared pin |
| PrivateCaches.PrivateCache.TryPin | include/private_cache.hpp:148-158 | counts one pin of the page, by a hit, a free frame or one eviction; one shared pin per resident page before and after; fails exactly when not resident with every frame pinned |
| PrivateCaches.PrivateCache.Pin | include/private_cache.hpp:139-160 | reports a bad page id or out of frames exactly when they are so, changing nothing then; else the page has one pin more, and if it was not resident is mapped clean to a frame of its partition, whose unpinned page, if no frame was free, is given back as dirty exactly when it was |
| PrivateCaches.PrivateCache.Unpin | include/private_cache.hpp:162-174 | gives back one pin, the entry dirty if it was or the caller says so, no other changed; does nothing for a page not resident |
| PrivateCaches.PrivateCache.NoteWrite | include/direct_cache.hpp:67-81 | a write through a pin is owed to the shared cache until declared |
| PrivateCaches.PrivateCache.Flush | include/private_cache.hpp:119-137 | every shared pin is given back, as dirty exactly when its page is dirty or still pinned; the caches are empty |
| PrivateCaches.PrivateCache.FlushOne | include/shared_single_thread_cache.hpp:383-414 | one cache's frames are given back in order, pinned ones as dirty |
| PrivateCaches.PinnedEvictingOk | include/private_cache.hpp:49-77 | an eviction followed by a load keeps one shared pin per resident page and loses no write |
| PrivateCaches.PinBrings | include/private_cache.hpp:49-77 | the effect of a pin in terms of entries and of the calls made to the shared cache |
| PrivateCaches.UnpinnedOk | include/shared_single_thread_cache.hpp:194-212 | so does an unpin that declares what it owes |
| DirectCaches.DirectCache.constructor | include/direct_cache.hpp:27-43 | all slots empty; the slot count is a power of two of at most 2^30, above 1 less than half the thread's frames, and below 2^30 at least a quarter of them; a power of two of partitions fits |
| DirectCaches.DirectCache.Access | include/direct_cache.hpp:67-81 | the page is in its slot with one private pin and its write noted in the dirty bit; nothing else changes but the page that made way; refused exactly on a bad id or with no frame left once its slot is vacated; never out of frames when only slots hold pins and one partition's slots or pages are no more than its frames; the reserved id taken for a hit on an empty slot yields the null pointer, and nothing else does |
| DirectCaches.DirectCache.Flush | include/direct_cache.hpp:54-64 | every slot is empty; its page has one pin less and is dirty if it was or the slot said so; no other entry changes |
| DirectCaches.RoomForOne | include/direct_cache.hpp:67-81 | with the slot vacated, fewer pages of its partition are pinned than slots the partition's pages can meet |
| DirectCaches.FewPages | include/direct_cache.hpp:67-81 | when no partition has more pages than frames, a page not pinned leaves a frame not pinned |
| DirectCaches.IntegratedCache.constructor | include/integrated_cache.hpp:30-41 | a thread starts with no shared pin |
| DirectCaches.IntegratedCache.Access | include/integrated_cache.hpp:75-84 | the page is in its slot afterwards, pinned once for it besides the thread's own pins and held once of the shared cache; its dirty bit is what it had there or the write, and no other slot changes; done exactly when it is in its slot, or in the space with a frame to be had once the slot is vacated; the write is owed to the shared cache |
| DirectCaches.IntegratedCache.Pin | include/integrated_cache.hpp:86-93 | one pin more of the page, which is brought in if need be, at the cost of at most one unpinned page of its partition; nothing else changes; refused exactly on a bad id or with every frame of the partition pinned, unchanged |
| DirectCaches.IntegratedCache.Unpin | include/integrated_cache.hpp:95-102 | one pin less, dirty if it was or the caller says so; no other entry changes; nothing for a page not resident |
| DirectCaches.IntegratedCache.Touch | include/integrated_cache.hpp:86-102 | a write through such a pin is owed to the shared cache and remembered until the pin is given back as dirty |
| DirectCaches.IntegratedCache.Flush | include/integrated_cache.hpp:48-73 | the thread holds no shared pin afterwards and both levels are empty; each page was given back as dirty exactly when the private cache had it dirty, a slot had it marked, or the thread still had a pin of its own |
| Visibility.Disciplined | include/private_cache.hpp:49-62 | a thread whose history is faithful gives back as dirty whatever it has stored through |
| Visibility.FaithfulThreadsRun | include/shared_cache.hpp:103-176 | whatever threads with such histories do to a partition is a run of it: nothing further is asked of them |
| Visibility.ProjectGood | include/partitioner.hpp:29-42 | the part of a private cache's history that one partition sees is faithful again, with at most one pin a page |
| Visibility.StoresAreSeen | include/integrated_cache.hpp:75-102 | whoever holds a pin of a page sees the last store any thread made to it through its private cache, whatever evictions, reloads and flushes came between |
| Visibility.FlushedThreadLeaves | include/integrated_cache.hpp:48-73 | a thread that has given everything back, as its flush does, holds no pin in a partition; once no holder has stored, the last store is what was left with is_write |
| Capacity.SlotCount | include/direct_cache.hpp:27-33 | the slot count computed, a power of two of at most 2^30, above one less than half the frames, below 2^30 at least a quarter; one beyond 2^63 frames |
| Capacity.PowerOfTwoFits | include/direct_cache.hpp:27-33 | with a power of two of partitions and a frame in each, one partition's pages meet no more slots than it has frames |
| Capacity.SameSlot | include/direct_cache.hpp:67-81 | blocks a whole spread apart share a slot |
| Capacity.OtherSlot | include/direct_cache.hpp:67-81 | closer ones do not |
| Capacity.SpreadExists | include/direct_cache.hpp:67-81 | every slot and partition count has a spread |
| AccessRefusal.Stride | include/direct_cache.hpp:67-81 | accessing one partition's pages in turn is refused for want of a frame exactly when the configuration lets slots alone cause a refusal at all, and then the pages so far are in their slots: the condition in `Access` is exact |
| AccessRefusal.FiveByTwo | include/direct_cache.hpp:67-81 | five partitions of two frames have four slots and are such a case exactly for more than ten pages |
| ByteCopy.FarApartIsDisjoint | bind/cache.cpp:786 | for n > 0 the wrap-around test holds exactly when the ranges do not overlap |
| ByteCopy.Memcpy | bind/cache.cpp:611-661 | the page walk is a byte copy, every byte touched in a pinned page, pins balanced, at most two held; it fails exactly when a range ends with the space |
| ByteCopy.Memmove | bind/cache.cpp:772-800 | whatever the overlap, the destination ends up with what the source held and nothing else changes |
| ByteCopy.Forwards | bind/cache.cpp:788-792 | copying upwards is right when the destination is below the source |
| ByteCopy.Backwards | bind/cache.cpp:793-797 | copying downwards is right when it is above |
| ByteCopy.CopiedIs | bind/cache.cpp:601-662 | the result of a copy is unique: destination as source was, rest as before |
| Allocator.SizeToOrder | include/cached_allocator.hpp:99-109 | the order of the least power of two at or above the request and the page size |
| Allocator.AndPredecessor | include/cached_allocator.hpp:102 | n & (n - 1) is zero exactly for powers of two |
| Allocator.InvStep | include/cached_allocator.hpp:47-94 | every pop, miss, bump after a miss, failed bump, take-back, deallocation and thread exit, in any interleaving, keeps the blocks apart and accounted for |
| Allocator.LiveBlocksApart | include/cached_allocator.hpp:47-77 | live blocks start on page boundaries and share no page |
| Allocator.AllocationFits | include/cached_allocator.hpp:47-77 | a block handed out was in nobody's use and has the least power-of-two size |
| Allocator.BumpIff | include/cached_allocator.hpp:62-72 | with its free list found empty a thread gets a block exactly when some space is not used up, at the end of what is used; else it has only taken what it will give back |
| Allocator.BlocksStartInside | include/cached_allocator.hpp:62-72 | every block starts within the space |
| Allocator.FailuresLeaveNoTrace | include/cached_allocator.hpp:62-72 | used_size is the sum of the blocks granted plus what failing threads still owe; the blocks granted fill the space from the base without gap or overlap |
| Allocator.BlocksAccounted | include/cached_allocator.hpp:79-133 | a block once cut is in use, in exactly one place of one free list, of its order, or lost; and it is lost exactly when it was in a private free list of a thread that has exited |
| Allocator.LargeBlocksShared | include/cached_allocator.hpp:52-60 | a block of more than half a MiB is never lost, and when it is not in use any thread asking for its size is served from the free list |
| Allocator.FreedBlockReused | include/cached_allocator.hpp:79-94 | a block just freed goes to the next thread that asks for its size: to any for more than half a MiB, else to the thread that freed it |
| Allocator.SmallBlocksPrivate | include/cached_allocator.hpp:52-55 | a freed block of at most half a MiB is handed out again to the thread that freed it only |
| Allocator.LostStep | include/cached_allocator.hpp:124-142 | only the exit of a thread loses blocks, exactly those in its private free lists, and a lost block is never regained |
| Allocator.LostIff | include/cached_allocator.hpp:124-142 | over whole runs the lost blocks are exactly those in a private free list of some thread when it exited |
| Allocator.ExitLosesBlock | include/cached_allocator.hpp:124-142 | a run in which one page is allocated, freed and its thread exits: with nothing in use the next allocation fails for want of space |

## Left out

- SPDK, libaio and io_uring back ends, NUMA placement, CPU binding, fibers, timers: foreign calls; the in-memory device and an abstract asynchronous device stand for them.
- C++ memory orders beyond payload-before-header and atomic compare-and-swap: steps are sequentially consistent.
- The roll-back in the page table's `pin` when the tag has changed under it, and interleavings inside victim selection: below the granularity of the steps.
- `flush` of a cache whose evict callback is asynchronous: the shared cache never calls it.
- CompactPageTable.SpareLineLeft: does not cover many pins in flight at once or refused pins, for which the overflow lines need not suffice; `RoomIff` says exactly when they do, `RefusedPinsExhaust` shows a run in which they do not.
- CacheTheorems.VictimExists: gives a sufficient condition only, in terms of counters; `VictimTurnIff` gives the exact one in terms of the replacement set.
- MemCopyDevice.MemCopy.Progress: does not model the returned flag, which no caller in the core uses.
- PrivateCaches.PrivateCache.Pin: does not model the clock's choice among unpinned frames, any of which may be evicted.
- DirectCaches.IntegratedCache.Flush: does not model that the two levels are deleted and lazily made anew; they are left as new.
- ByteCopy.Memcpy: does not model a pin refused for want of frames, nor operands outside the cached space.
- Allocator.LiveBlocksApart: does not claim that a block ends within total_size, since only its start is checked.
- 64-bit widths of counters, offsets and histories other than where a contract mentions them: integers are unbounded.
- `LRU`, the older single-thread cache and page table, the mmap allocator, memset: only easier members.
- The malloc, mmap and file hooks, the fault handler, instruction decoding and compiler passes: operating-system and compiler plumbing.
- Access counters, statistics, benchmarks, scripts and plots: nothing to prove.
