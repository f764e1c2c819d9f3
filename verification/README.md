# Ticket gateway: verified model

The repository is a ticket-sale system: a gateway process that accepts clients, buffers and resends
their requests out of its own memory pool, a registry of service servers, and service servers that
sell tickets in database transactions. This project models the parts whose correctness depends on
state kept over long runs, and proves what they promise. `dafny verify dfyconfig.toml` checks it.

## How it is built

| file | what it models |
|---|---|
| `Words.dfy`, `Layouts.dfy`, `Arenas.dfy`, `Payloads.dfy` | one arena of the pool: byte-addressed memory with headers, footers and two doubly linked lists in it; the arena as a value; the pointer surgery proved to do to memory what the value says; one block's bytes over a whole run |
| `Pools.dfy`, `MemoryPool.dfy` | the pool of arenas: search, growth, release, clear, accounting; the object and its runs |
| `GatewaySpec.dfy`, `GatewayRuns.dfy`, `Gateway.dfy` | a gateway worker: rings, client tables, callbacks, timer sweeps; all runs of it; the object with its ring buffers, on top of the pool object |
| `EventText.dfy`, `LongTexts.dfy` | the copy of a request's text into its event, byte by byte and word by word; what a text too long does to the worker |
| `RateLimit.dfy`, `GatewayHistory.dfy` | over whole runs of a worker: the rate limiter; what its time fields mean, when clients were heard and requests written to a server |
| `GatewayEffects.dfy` | what each callback does to every client, table and ring; the life of one client over whole runs, told from the calls alone |
| `AcceptToken.dfy` | the hand-off of `accept` between the parent and its workers, every process interleaved |
| `Framing.dfy` | the length-prefixed read loop |
| `TicketSale.dfy`, `ScrambleView.dfy` | the sale transaction with any number of sessions interleaved; one session's statements, early exits and all |
| `ConnectionPool.dfy` | the database connection pool under its mutex |
| `Registry.dfy` | the stored table of servers that are up and down |

Where the source changes objects in place there are two layers: a specification on values, about
which the theorems are proved, and a class whose methods are proved equal to the specification.
`exit(0)` on a full ring is `None` in the specification and the result `exited` in the class.

In memory, a cell is an eight-byte word named by its first byte, and a store destroys every cell it
overlaps. A read is only allowed of a cell that holds something, so that headers, footers, links and
payloads never run into each other is part of what is proved. Sizes follow the LP64 layout: a header
of 32 bytes, a footer of 8.

## What the proofs found

- A request's text is copied into its event with `strcpy` and no check (`pool.h:682`). `FlagExact`: from
  1034 bytes on the copy sets the event's own finish flag. `LongTextDangles`: the resend sweep then
  frees the event while the client's table still points to it, and the request is never sent again;
  `LongTextRun` is such a run. `SafeTextExact`: every table entry stays live and every unanswered
  request is resent exactly for texts below 1034 bytes. `TextExact`: the pool's own structure
  survives exactly while the text fits the event's block, which `TextFitsExact` puts at 1047 bytes.
  `ResentExact`: a request is resent as it was exactly up to 1024 bytes. All results on runs of a
  worker are about texts below 1034 bytes.
- The connection pool's `maxSize` is compared with the idle connections, and only when there are
  none; the comment in `dbConnectionPool.cpp:110` says it limits the connections. `LimitExact`: with
  at most T borrowers it does exactly if the pool does not start with more and, when it starts with
  no more than T, T + 1 is allowed. `OpenBoundedExact`: with any number of borrowers, some limit
  holds only if `maxSize` is not positive.
- `Total_number` is taken from the client as it is, and a sale is refused only when the stock is
  exactly zero. `OversoldIffNegative`: more tickets than announced can be sold exactly for a
  negative number.
- Both read loops return after a message that does not parse, also with whole frames still
  buffered. `DeliveryExact`: what is delivered is independent of how bytes arrive exactly when no
  message that does not parse comes before one that does. `LeftoverExact`: nothing stays in the
  buffer, however bytes arrive, exactly when no such message is followed by another at all.
- A length of -4 to -1 passes the guard of the read loop, whose sum wraps round, and takes whatever has
  arrived. `FramesExact`: the frames extracted are independent of how bytes arrive exactly when no
  such length has bytes behind it.
- A message with a NUL in it arrives cut off there (`TextsExact`).
- Two places of the pool take every arena to have the first one's size. With a maximum below twice
  the arena size an arena added by growth is shorter. `MergeGuardExact`: the merge after a release
  then goes on behind the arena's end, wherever that is, exactly for those sizes (unless the arena has
  no room for a chunk). `LookupExact`:
  `find_memory_list` takes a live block for one of the short arena's for some placement of the
  arenas exactly when the missing bytes exceed the gap between two arenas and one header. Two
  allocations lead there (`LookupWrongRun`, `MergeLeavesRun`). The shipped constants are exactly
  twice.
- With such sizes a failing allocation may still have added an arena (`AllocFails`).
- `MP_ALIGN_SIZE` wraps for exactly the requests within 48 bytes of 2^64 (`AlignSizeSound`); exactly
  those are given a chunk without room for them (`AllocRoomExact`), and a split by the wrapped size
  breaks the arena (`TakeExact`). `AllocKeepsExact` says for every request and answer of malloc
  whether the pool stays sound.
- The server table needs the lock its comments ask for and the code does not take. Of two calls that
  both load before either opens the file to store, `OverlapExact` says which have the outcome of some
  order, return codes and notices to the workers included: only if one fails, or a logout overtakes
  a mark of the same server. A call may also load while another has the file truncated, and finds no
  servers. `InterruptedExact` says when that does no harm; `LogoutMissed` and `OthersForgotten` are
  inputs where it does.
  `CrashSeenTwice`: the two threads that look for crashed servers can both mark one server down, and
  every worker is told twice.
- A table file that does not parse loads as two empty lists, and the next login overwrites it
  (`GarbledForgets`).
- A fair scheduler does not bring the accept token back: the parent's `trylock` can be ahead of the
  worker's lock every time (`TokenStarves`). With a mutex that is fair too it always comes back
  (`FairReturns`).
- The comment at `pool.h:269` announces a sweep every 10 seconds; the constant is 2. Nothing proved
  depends on the period.

## Model

| member | source | states |
|---|---|---|
| `Words.InsertFront` | src/proxy/memorypool.cpp:30-36 | the macro turns a well-formed doubly linked list into the one with the chunk in front, for an empty list too, and writes three link words only |
| `Words.Delete` | src/proxy/memorypool.cpp:38-47 | the macro takes exactly the given member out, at the front, in the middle or at the end, and the list stays well-formed |
| `Words.Replace` | src/proxy/memorypool.cpp:212-218 | a copied header takes its original's place in the free list, order unchanged |
| `Layouts.TakeSound` | src/proxy/memorypool.cpp:198-236 | an allocation keeps exact tiling, both lists, the byte sum and coalescing; the chunk handed out was free, has the size asked for and at most 40 bytes more; the blocks already allocated stay |
| `Layouts.TakeExact` | src/proxy/memorypool.cpp:200-225 | taking any size that fits keeps the arena sound if and only if it is not a split by 40 bytes or less |
| `Layouts.TakeOrder` | src/proxy/memorypool.cpp:200-231 | what is left of a split chunk takes its place in the free list, and the other free chunks keep theirs and their sizes |
| `Layouts.TakeUndone` | src/proxy/memorypool.cpp:198-291 | releasing what was just allocated gives back every chunk, block and size there was; only the free list starts with the chunk |
| `Layouts.ReleaseSound` | src/proxy/memorypool.cpp:121-136 | a release with its merge keeps all of that, so it merges completely, and takes exactly its block off the alloc list |
| `Layouts.ReleaseExact` | src/proxy/memorypool.cpp:121-136 | a release in closed form, without its two loops: the chunk joins the free one that ends where it begins and the free one that begins where it ends, if there are such; the joined chunk keeps the left one's place in the free list or goes to the front, and nothing else changes |
| `Layouts.ReleaseBytes` | src/proxy/memorypool.cpp:287-288 | the allocated bytes go down by exactly the chunk released |
| `Layouts.RunStartIsLeft` | src/proxy/memorypool.cpp:122-127 | walking left from a freed chunk there is at most one free chunk to join, because no two free chunks ever touch |
| `Layouts.FreshSound` | src/proxy/memorypool.cpp:17-28 | a newly initialised arena is sound |
| `Layouts.ByteInOneChunk` | src/proxy/memorypool.cpp:121-136 | every byte of a sound arena lies in exactly one chunk |
| `Layouts.EmptyIsFresh` | src/proxy/memorypool.cpp:273-291 | with nothing allocated the arena is one full-size free chunk |
| `Layouts.ReleaseAllGivesFresh` | src/proxy/memorypool.cpp:273-291 | releasing all blocks in any order whatever gives that one chunk back |
| `Layouts.FreeCount` | src/proxy/memorypool.cpp:121-141 | there is at most one more free chunk than allocated ones |
| `Layouts.RoomyHasFit` | src/proxy/memorypool.cpp:197-198 | an arena larger than the blocks allocated plus one too-small gap each has a fitting chunk, however fragmented |
| `Layouts.QuickRejectSound` | src/proxy/memorypool.cpp:189-192 | the per-arena quick reject never skips a fitting chunk |
| `Arenas.Carve` | src/proxy/memorypool.cpp:203-224 | splitting writes both headers, both footers and the free list so that memory represents the split layout; other payloads and other arenas keep every word |
| `Arenas.TakeWhole` | src/proxy/memorypool.cpp:227-231 | the same for handing out a chunk unsplit |
| `Arenas.TakeChunk` | src/proxy/memorypool.cpp:198-232 | after either, and the insertion into the alloc list, memory represents the layout after the allocation |
| `Arenas.MoveToFree` | src/proxy/memorypool.cpp:283-285 | memory represents the layout with the chunk moved to the front of the free list |
| `Arenas.LeftNeighbour` | src/proxy/memorypool.cpp:125-126 | before every chunk but the first lies a footer that leads to the header of its left neighbour, although a fresh arena has no footer |
| `Arenas.FirstOrFar` | src/proxy/memorypool.cpp:125 | the test for the arena's start stops at its first chunk only |
| `Arenas.AbsorbRight` | src/proxy/memorypool.cpp:131-133 | one round of the merge takes the right neighbour off the free list and adds its size |
| `Arenas.MergeFreeChunk` | src/proxy/memorypool.cpp:121-141 | both walks end, and leave in memory the whole run of free chunks around the freed one joined, with its footer |
| `Arenas.Arena.constructor` | src/proxy/memorypool.cpp:95-107 | over memory with any content whatever, the arena is one free chunk |
| `Arenas.Arena.Allocate` | src/proxy/memorypool.cpp:194-243 | the first fitting chunk in list order is taken, or nothing changes if and only if none fits; `alloc_mem` and `alloc_prog_mem` stay equal to what the alloc list adds up to |
| `Arenas.Arena.Free` | src/proxy/memorypool.cpp:281-290 | the fields and the memory represent the released and merged layout; nobody else's payload changes |
| `Arenas.Arena.Clear` | src/proxy/memorypool.cpp:299-300 | everything is one free chunk again |
| `Arenas.PayloadStoreKeepsHeap` | src/proxy/memorypool.cpp:240 | whatever an owner writes into its payload leaves every header, footer, list and foreign payload in place |
| `Arenas.StoreAllKeepsHeap` | src/proxy/memorypool.cpp:240 | the same for any number of words stored one after the other |
| `Arenas.PayloadsDisjoint` | src/proxy/memorypool.cpp:240 | payloads of two blocks share no byte, and lie inside the arena |
| `Payloads.RunKeeps` | src/proxy/memorypool.cpp:175-291 | over any run of allocations, releases and stores by the owners of other blocks, a block keeps its place, its size and every word its owner wrote |
| `Pools.AlignSizeSound` | src/proxy/memorypool.cpp:15 | aligned sizes are 41 to 48 bytes above the request, a multiple of 8, exactly for requests below 2^64 - 48; above, they wrap to at most 40 |
| `Pools.InitExact` | src/proxy/memorypool.cpp:143-173 | a new pool is sound if and only if its arena has more than 40 bytes, whatever an unwritten `auto_extend` held; its one arena is where malloc put it, and it may grow exactly if the maximum is larger or the garbage says so |
| `Pools.AllocFails` | src/proxy/memorypool.cpp:175-271 | for every request, answer of malloc and pool, also one that already grew by a short arena: NULL is returned if and only if the request is 0, or its aligned size exceeds an arena, or no chunk of any arena fits and neither would a new arena; nothing has changed then but that a new arena too small may have been added |
| `Pools.AllocSound` | src/proxy/memorypool.cpp:175-271 | otherwise exactly one block is added, not allocated before, 41 to 88 bytes larger than the request; all blocks allocated before are still there with their sizes |
| `Pools.AllocFirst` | src/proxy/memorypool.cpp:186-198 | first fit: the block is cut from the first chunk that is large enough, in list order, of the first arena that has one, and the other arenas stay as they are |
| `Pools.AllocAtFront` | src/proxy/memorypool.cpp:248-263 | when none has and one may be added, the new arena goes in front of the others, which stay as they are, and the block is at its beginning |
| `Pools.AllocKeepsExact` | src/proxy/memorypool.cpp:175-271 | for every request, an allocation leaves a sound pool if and only if it neither splits off a chunk without room for header and footer nor adds a short arena |
| `Pools.AllocRoomExact` | src/proxy/memorypool.cpp:177-179 | the chunk handed out has room for the request, header and footer if and only if the aligned size did not wrap |
| `Pools.GrownRoom` | src/proxy/memorypool.cpp:248-262 | after growing the retry succeeds in the new arena if and only if the request is no larger than what growth adds |
| `Pools.GrownFull` | src/proxy/memorypool.cpp:250-262 | after growth by a short arena the maximum is reached, so there is no third search |
| `Pools.GrowSound` | src/proxy/memorypool.cpp:253-260 | growing keeps the pool sound and all its blocks |
| `Pools.ArenaOfBlock` | src/proxy/memorypool.cpp:109-119 | the address test finds the arena that holds the block, and no other |
| `Pools.LookupExact` | src/proxy/memorypool.cpp:109-119 | the address test finds the arena of every live block, for every sound placement of arenas at least a gap apart, if and only if what growth adds, the gap and one header make up an arena's size |
| `Pools.LookupWrong` | src/proxy/memorypool.cpp:109-119 | otherwise there is a live block of the first arena that is looked up in the short one before it |
| `Pools.LookupWrongRun` | src/proxy/memorypool.cpp:109-119 | a new pool and two allocations lead there: the first block is then looked up in the second arena |
| `Pools.MergeGuardExact` | src/proxy/memorypool.cpp:129-134 | in arenas added by growth the merge's guard lets it read headers of its own arena only, if and only if the maximum is at least twice the arena size or what growth adds has no room for a chunk |
| `Pools.MergeLeaves` | src/proxy/memorypool.cpp:129-134 | otherwise, after the only block of such an arena is freed, the guard passes at the arena's end |
| `Pools.MergeLeavesRun` | src/proxy/memorypool.cpp:129-134 | a new pool, two allocations and the release of the second block lead there |
| `Pools.OnlyArena` | src/proxy/memorypool.cpp:278-279 | a pool that may not grow has one arena, so skipping the search is right |
| `Pools.FreeSound` | src/proxy/memorypool.cpp:273-291 | exactly the given block is gone; freeing NULL changes nothing |
| `Pools.ClearSound` | src/proxy/memorypool.cpp:293-307 | no block is left in any arena, the pool is sound, and every arena is where it was |
| `Pools.RunSound` | src/proxy/memorypool.cpp:175-307 | every sequence of legal allocations, frees and clears, with every answer of the system's malloc, keeps the pool sound |
| `Pools.RunsOutFresh` | src/proxy/memorypool.cpp:273-291 | after any run that leaves no block, every arena is one full-size free chunk |
| `Pools.Accounting` | src/proxy/memorypool.cpp:332-346 | free and allocated bytes add up to the memory taken from the system |
| `Pools.AllocUsed` | src/proxy/memorypool.cpp:234-236 | the used bytes grow by exactly the chunk handed out |
| `Pools.FreeUsed` | src/proxy/memorypool.cpp:287-288 | and shrink by exactly the chunk given back |
| `Pools.TotalBounded` | src/proxy/memorypool.cpp:250-260 | the total stays below maximum plus one arena, and within the maximum when arenas divide it |
| `MemoryPools.MemoryPool.Init` | src/proxy/memorypool.cpp:143-173 | the object starts as the specified pool |
| `MemoryPools.MemoryPoolInit` | src/proxy/memorypool.cpp:143-173 | NULL if and only if the arena is larger than the maximum or malloc fails for the record or the arena; else a sound pool |
| `MemoryPools.MemoryPool.Search` | src/proxy/memorypool.cpp:187-246 | one pass allocates from the first arena that has a fitting chunk, and fails only if none has |
| `MemoryPools.MemoryPool.FindFreeChunk` | src/proxy/memorypool.cpp:186-263 | the retry loop ends, growth shrinking the distance to the maximum, with the specified pool and address |
| `MemoryPools.MemoryPool.MemoryPoolAlloc` | src/proxy/memorypool.cpp:175-271 | the object does what `Pools.Alloc` says, and no word of anybody's payload changes |
| `MemoryPools.MemoryPool.FindMemoryList` | src/proxy/memorypool.cpp:109-119 | the loop finds the first arena whose assumed range holds the address |
| `MemoryPools.MemoryPool.MemoryPoolFree` | src/proxy/memorypool.cpp:273-291 | the object does what `Pools.Free` says, returns 1 for NULL only, and changes no other payload |
| `MemoryPools.MemoryPool.MemoryPoolClear` | src/proxy/memorypool.cpp:293-307 | every arena is reinitialised |
| `MemoryPools.MemoryPool.GetUsedMemory` | src/proxy/memorypool.cpp:332-346 | the counters add up to the sizes of all allocated chunks |
| `MemoryPools.MemoryPool.GetProgMemory` | src/proxy/memorypool.cpp:348-362 | the same less 40 bytes for every allocated chunk |
| `GatewaySpec.EventFits` | include/pool.h:421 | with both rings not full the first arena has a chunk for an event, so the allocation cannot fail and the pool does not grow |
| `EventText.FlagExact` | include/pool.h:679-683 | the copy of a text sets the finish flag of its own event if and only if the text has 1034 bytes or more |
| `EventText.ResentExact` | include/pool.h:363-365 | the bytes a resend takes from the event are the text, whatever the time stored, if and only if it has at most 1024 bytes |
| `EventText.TextExact` | include/pool.h:682 | whatever the text, its copy leaves headers, footers, lists and other payloads in place if and only if it fits the block's payload |
| `EventText.TextFitsExact` | include/pool.h:682 | in the smallest block an event can have, that is at most 1047 bytes |
| `GatewaySpec.ConnectSound` | include/pool.h:418-431 | a connection keeps the worker's invariant: pool blocks, rings, tables and history agree (what it does to the clients is `ConnectEffect`) |
| `GatewayEffects.ConnectEffect` | include/pool.h:418-431 | a connection exits exactly on a full ring; otherwise the clients are the old ones, each unchanged, and one under the next id with count 0, close flag clear, pack_id 0 and nothing pending, whose event goes to the back of `msg_queue` |
| `GatewaySpec.RequestSound` | include/pool.h:641-690 | an accepted request with a text below 1034 bytes keeps the invariant |
| `GatewayEffects.RequestExits` | include/pool.h:672-690 | a request exits exactly if its client is unmarked and made fewer than ten, and one of the two rings would fill up |
| `GatewayEffects.PassedEffect` | include/pool.h:533-690 | an unmarked client with fewer than ten requests counted stays unmarked, its count rises by one, and its request goes to a server once, now, under the next pack_id, which is new; no other client changes |
| `GatewayEffects.PassedEvents` | include/pool.h:662-690 | the client's table gains exactly the request and a new current event, both at the back of their rings with the time, id and pack_id; the old current event is flagged, and every other event and entry stays |
| `GatewayEffects.RefusedEffect` | include/pool.h:533-562 | a request of a marked client changes nothing, and one more than ten marks its client; nothing of either is sent, queued or numbered, and no other client changes |
| `LongTexts.RequestExact` | include/pool.h:679-690 | the invariant survives an accepted request if and only if its text leaves the finish flag alone |
| `LongTexts.LongTextDangles` | include/pool.h:376-379 | after any accepted request of 1034 bytes or more, a tick that finds its event overdue and its client connected frees the event, leaves the table pointing to it, and the request is never written again |
| `LongTexts.LongTextRun` | include/pool.h:376-379 | a client that connects, sends such a text and waits eleven seconds leads there |
| `LongTexts.SafeTextExact` | include/pool.h:679-690 | every table entry stays a live event and no unanswered request is neglected, after any accepted request of a given length and any tick, if and only if the length is below 1034 |
| `GatewaySpec.ReplySound` | include/pool.h:755-766 | a reply is passed back exactly if the client is connected and the request unanswered, and keeps the invariant |
| `GatewayEffects.ReplyEffect` | include/pool.h:755-766 | a first reply to a connected client takes exactly its request off the table and flags exactly its event; any other reply changes nothing |
| `GatewaySpec.ReplyKnown` | include/pool.h:756-763 | the table has a request's entry exactly while it is unanswered, and the entry is a live event |
| `GatewaySpec.DisconnectSound` | include/pool.h:703-706 | a disconnection leaves events behind that no table points to, and keeps the invariant |
| `GatewayEffects.DisconnectEffect` | include/pool.h:703-706 | exactly the client that left is gone, and nothing else changes |
| `GatewaySpec.EmptyCountSound` | include/pool.h:280-292 | the end of a period keeps the invariant |
| `GatewayEffects.PeriodEffect` | include/pool.h:280-292 | exactly the marked clients are gone, the others' counts are zero, and nothing else changes |
| `GatewaySpec.MsgSweepSound` | include/pool.h:313-347 | the idle sweep, though it stops at the first fresh event, disconnects exactly the clients whose current event is more than 30 seconds old; the other clients keep their tables |
| `GatewayEffects.MsgSweepRing` | include/pool.h:315-347 | the idle sweep frees exactly the events before the first one that is at most 30 seconds old and whose client stays; the ring keeps the rest in order |
| `GatewaySpec.ResendProgress` | include/pool.h:358-379 | a resend lowers the number of overdue requests, so the sweep ends although it refills the ring it drains |
| `GatewaySpec.ResendSound` | include/pool.h:360-379 | a resend, recorded with its time, keeps the ring sorted by time and the invariant |
| `GatewaySpec.FinSweepSound` | include/pool.h:349-383 | after the resend sweep no event in the ring is older than 10 seconds; clients, tables and replies are as before |
| `GatewaySpec.FinSweepHalts` | include/pool.h:369-374 | it exits if and only if the ring is full and its front request is connected, unanswered and overdue |
| `GatewayEffects.FinSweepRing` | include/pool.h:350-383 | the resend sweep takes exactly the events before the first one of a connected client that is at most 10 seconds old; those unanswered, of connected clients, go to the back in order with the present time, the others are freed |
| `GatewayRuns.TickSound` | include/pool.h:313-384 | one timer tick: exactly the clients with an old current event are gone, and no pending event is older than 10 seconds |
| `GatewayEffects.TickEffect` | include/pool.h:313-384 | a tick leaves the clients that stay as they were |
| `GatewayEffects.StepGone` | include/pool.h:280-707 | a connected client is gone after a call if and only if it left, it was silent for more than 30 seconds at a tick, or it was marked at a period's end |
| `GatewayRuns.RunSound` | include/pool.h:280-766 | every sequence of callbacks, with a clock that does not go back, texts below 1034 bytes and any repeated replies, keeps the invariant |
| `GatewayRuns.RunNeverExhaustsPool` | include/pool.h:666-690 | in no run can an event allocation return NULL or make the pool ask the system for memory |
| `GatewayRuns.RunOwnsItsEvents` | include/pool.h:313-384 | in every run with texts below 1034 bytes the pool's blocks are exactly the ring members, each once, and every table entry is a live block: nothing leaked, freed twice or used after it was freed |
| `GatewayRuns.RunOneCurrentEvent` | include/pool.h:662-677 | a connected client has exactly one unflagged event in `msg_queue`, entry 0 of its table |
| `GatewayRuns.RunAnswersOnce` | include/pool.h:756-766 | no request is answered twice, and none that was not made |
| `GatewayRuns.ReplyTwice` | include/pool.h:757 | a repeated reply changes nothing |
| `GatewayRuns.RunKeepsRequest` | include/pool.h:679-690 | in such a run a connected client's request is in its table and at exactly one place of `fin_queue` precisely while it is unanswered |
| `RateLimit.RequestSpends` | include/pool.h:533-647 | a request passed on costs its client one of its ten: no client's pack_id ever rises by more than its remaining budget falls, whoever sends |
| `RateLimit.RunStaysAway` | include/pool.h:431 | a client that left never comes back under its id, in any run |
| `RateLimit.RateLimited` | include/pool.h:533-557 | over any run, at most ten requests of a connected client are passed on per period, whatever it sends, and they carry the next pack_ids |
| `GatewayEffects.RunLife` | include/pool.h:280-707 | after every run, whether a client is connected, its count, its mark, its pack_id, when it was last heard and which of its requests went to a server are what the calls tell of that client alone, whatever other clients did |
| `GatewayEffects.RunFirstTen` | include/pool.h:533-690 | after every run, a client's request is passed on, once and under the pack_id after those before it, if and only if it is one of the first ten the client makes in the period |
| `GatewayEffects.RunGone` | include/pool.h:280-707 | after every run, a call takes a connected client away if and only if the client leaves, it is a tick and the client was last heard more than 30 seconds ago, or it is the end of a period in which the client made an eleventh request |
| `GatewayHistory.MsgSweepKeeps` | include/pool.h:313-347 | the idle sweep writes nothing to a server and leaves every pending event, and every event it does not free, as it was |
| `GatewayHistory.FinSweepKeeps` | include/pool.h:349-383 | the resend sweep leaves every event of `msg_queue` as it was |
| `GatewayHistory.FinSweepWrites` | include/pool.h:358-379 | the resend sweep writes to a server exactly the pending requests older than 10 seconds, each once |
| `GatewayHistory.RunWrites` | include/pool.h:654-690 | in every run the time field of a pending request is when it was last written to a server |
| `GatewayHistory.TickResends` | include/pool.h:349-383 | from a state of such a run, a tick writes exactly the unanswered requests of the clients that stay which were last written more than 10 seconds ago, each once; afterwards every unanswered request of a connected client was written at most 10 seconds ago |
| `GatewayHistory.RunResends` | include/pool.h:349-383 | the same for a tick after any run with texts below 1034 bytes |
| `GatewayHistory.RunLastSeen` | include/pool.h:422-424 | in every run the time of a connected client's current event is when it connected or when its last request was passed on, whichever is later |
| `GatewayHistory.RunSilence` | include/pool.h:321-341 | a tick after any run disconnects exactly the clients last heard, by connecting or by a request that was passed on, more than 30 seconds ago |
| `GatewayWorker.Ring.Push` | include/pool.h:425-430 | the element goes to the back; full is reported exactly when the last place was used |
| `GatewayWorker.Ring.Pop` | include/pool.h:318 | the front element leaves, also where the index wraps round |
| `GatewayWorker.Worker.constructor` | include/pool.h:134 | the worker starts with empty rings and tables and the shipped pool sizes |
| `GatewayWorker.Worker.ClientConnects` | include/pool.h:418-431 | the object does what `Connect` says, exiting exactly on a full ring; `client_map` holds the old clients unchanged and one new one |
| `GatewayWorker.Worker.CurrentLimit` | include/pool.h:533-557 | a request is let through if and only if fewer than ten were counted; it is counted, one more marks its client for closing, and neither touches the client's other fields or another client |
| `GatewayWorker.Worker.RecordArrival` | include/pool.h:662-677 | the old current event is flagged and a new one is queued and tabled, in this order |
| `GatewayWorker.Worker.RecordRequest` | include/pool.h:647-690 | the request is queued and tabled under the next pack_id, its text copied into the event's block, its flags as the copy leaves them |
| `GatewayWorker.Worker.ClientSends` | include/pool.h:559-692 | the object does what `Request` says, for texts of at most 1047 bytes |
| `GatewayWorker.Worker.ServerReplies` | include/pool.h:736-766 | the object does what `Reply` says, and forwards exactly first replies to connected clients |
| `GatewayWorker.Worker.ClientLeaves` | include/pool.h:695-707 | the client's entry goes, its events stay queued |
| `GatewayWorker.Worker.PeriodEnds` | include/pool.h:280-292 | marked clients go, the others' counters are zero |
| `GatewayWorker.Worker.SweepIdle` | include/pool.h:315-347 | the loop over the ring buffer does what `MsgSweep` says, also where a table entry dangles |
| `GatewayWorker.Worker.SweepPending` | include/pool.h:350-383 | the loop ends, and does what `FinSweep` says, also where a table entry dangles |
| `GatewayWorker.Worker.TimerFires` | include/pool.h:313-384 | both loops at one instant do what `Tick` says |
| `AcceptToken.TokenConserved` | include/pool.h:912-927 | in every interleaving there is exactly one token: the flag, a notice under way, or an accepting worker (whom notices go to is `RoundRobin`) |
| `AcceptToken.RoundRobin` | include/pool.h:915-922 | in every interleaving, notice i, as counted at the pipes, goes to worker i modulo the number of workers |
| `AcceptToken.NoticesShared` | include/pool.h:915-922 | so in every interleaving any two workers were sent equally many notices, or one of them one more |
| `AcceptToken.ParentVisit` | include/pool.h:912-926 | with the mutex free and the flag set the parent sends one notice, to the worker whose turn it is, and clears the flag |
| `AcceptToken.NoticeFollows` | include/pool.h:912-926 | after every run there is a way on to one more notice, so every worker's is ahead |
| `AcceptToken.OneAccepts` | include/pool.h:393-401 | at most one worker accepts, and no other notice is then under way |
| `AcceptToken.MutualExclusion` | include/pool.h:399-401 | two processes are never in the critical section at once |
| `AcceptToken.FlagClearWhileAccepting` | include/pool.h:399-401 | a worker about to set the flag finds it clear, so no setting is lost |
| `AcceptToken.TokenReturns` | include/pool.h:912-927 | from every reachable state some schedule sets the flag again: the token is never lost |
| `AcceptToken.FairReturns` | include/pool.h:912-927 | under every schedule in which each worker has turns again and again that are not spent waiting for a held mutex, the flag is set again and again |
| `AcceptToken.TokenStarves` | include/pool.h:913 | a schedule that gives both processes turns again and again, and yet the flag is never set after its sixth |
| `Framing.DrainConcat` | include/pool.h:711-725 | reading in two goes takes off what reading once takes off |
| `Framing.FeedIsDrain` | include/pool.h:565-584 | for any bytes that are well sized, whatever their lengths otherwise, and any cut into arrivals, the frames are those of all the bytes at once, and the same bytes are left |
| `Framing.FramesExact` | include/pool.h:576-583 | frames and bytes left are the same for every cut of a byte stream if and only if no length of -4 to -1 is met with bytes behind it |
| `Framing.ChunkingDoesNotMatter` | include/pool.h:565-584 | for any messages below 1024 bytes, and any cut, the messages come out in order, each up to its first NUL, with nothing left over |
| `Framing.TextsExact` | include/pool.h:582-584 | they come out as they were sent exactly if none contains a NUL |
| `Framing.CStringIs` | include/pool.h:584 | a message arrives as exactly the bytes before its first NUL, or whole |
| `Framing.DecodeEncode` | include/pool.h:571-573 | every 32-bit length, negative ones too, is read as it was sent |
| `Framing.FeedPrefix` | include/pool.h:728-733 | with the early return, any cut takes whole messages off the stream from the front, and if some are left the last one taken does not parse |
| `Framing.DeliveryExact` | include/pool.h:728-733 | what is delivered is the same for every cut if and only if no message that does not parse comes before one that does; it is then every message that parses |
| `Framing.LeftoverExact` | include/pool.h:728-733 | nothing is left in the buffer for every cut if and only if no message that does not parse is followed by another |
| `Framing.Reader.Arrive` | include/pool.h:709-733 | the loop over the input buffer extracts and leaves what `DrainParsed` says, wrapped guard and early return included |
| `TicketSale.NoOverselling` | src/server_service/view.cpp:161-297 | in every interleaving of any number of sessions stock plus tickets is the total, the stock is not negative, and the numbers issued are exactly 1 to sold, each once |
| `TicketSale.OversoldIffNegative` | src/server_service/view.cpp:231 | some run sells more tickets than announced if and only if the announced number is negative |
| `TicketSale.OneTicketPerWorker` | src/server_service/view.cpp:193-204 | of all sessions for one worker at most one succeeds, also when they run at once |
| `TicketSale.RunIsSerial` | src/server_service/view.cpp:161-297 | what is committed is what the successful sessions would leave one after the other; a session that ended otherwise left no write and no lock |
| `TicketSale.StepEffect` | src/server_service/view.cpp:258-275 | committed data change exactly at a successful commit, by one sale, and only then is success sent |
| `TicketSale.StepReplies` | src/server_service/view.cpp:161-297 | each reply has its one cause: a ticket already held at the check, stock zero under the lock just taken, a statement that failed or an insert refused for a ticket bought meanwhile, a commit; a session waits exactly when the row is locked |
| `TicketSale.RefusedRightly` | src/server_service/view.cpp:193-240 | in every interleaving, whoever was told to have a ticket has one, and whoever was told that there is none left read stock zero under the lock, and it is zero for good |
| `TicketSale.FailedRightly` | src/server_service/view.cpp:161-297 | in every interleaving, a session that ended in an error had a statement fail, or its worker has a ticket |
| `TicketSale.StepFrame` | src/server_service/view.cpp:161-297 | a statement touches no session but its own, and never another's lock |
| `TicketSale.TicketsStay` | src/server_service/view.cpp:251-255 | an issued ticket is never taken back or renumbered |
| `TicketSale.LockIsReleased` | src/server_service/view.cpp:208-296 | within three statements of its holder the row lock is free again |
| `TicketSale.RunSound` | src/server_service/view.cpp:161-297 | every run keeps the transaction invariant, from any state that satisfies it |
| `ScrambleView.SoloEffect` | src/server_service/view.cpp:161-297 | an undisturbed session succeeds exactly if every statement does, the worker has no ticket and there is stock; it then made one sale, and otherwise changed nothing; it answers that the worker has a ticket exactly if begin and check succeed and it has one, that none is left exactly if those and the lock succeed, it has none and the stock is zero, and in every other case an error |
| `ScrambleView.SoloIsRun` | src/server_service/view.cpp:161-297 | the session's statements are seven events of the interleaved model |
| `ScrambleView.Process` | src/server_service/view.cpp:161-297 | the statement sequence with all its early exits has that effect and sends that reply in each case |
| `ConnectionSpec.GetSound` | src/server_service/dbConnectionPool.cpp:126-153 | a borrower gets the front connection of the queue, which was idle at least as long as every other and is held by nobody else, and those left keep their order; none is available exactly when all are lent out |
| `ConnectionSpec.ReturnSound` | src/server_service/dbConnectionPool.cpp:142-147 | the connection given back goes to the end of the queue with the present time; the queue stays sorted by time and each open connection idle once or lent once |
| `ConnectionSpec.ProduceSound` | src/server_service/dbConnectionPool.cpp:99-124 | the producer queues one new connection exactly when all are lent out and `maxSize` is positive, after which a borrower is served; otherwise nothing changes |
| `ConnectionSpec.ScanSound` | src/server_service/dbConnectionPool.cpp:155-177 | a scan closes only expired idle connections, never below `initSize`, and leaves at most `initSize` idle or none expired |
| `ConnectionSpec.StartSound` | src/server_service/dbConnectionPool.cpp:75-87 | the pool starts with exactly the new connections, all idle |
| `ConnectionSpec.RunSound` | src/server_service/dbConnectionPool.cpp:99-177 | in every run open connections are the idle and the lent ones: none is lent twice, leaked, or deleted while lent |
| `ConnectionSpec.RunInOrder` | src/server_service/dbConnectionPool.cpp:99-177 | in every run connections leave the queue, lent or closed, in the order in which they were given back or opened, and those that have not left are still in it |
| `ConnectionSpec.LimitExact` | src/server_service/dbConnectionPool.cpp:108-118 | with at most T connections lent out at a time, no run has more than `maxSize` open if and only if `initSize` is at most `maxSize` and, when `maxSize` is positive and `initSize` at most T, T + 1 is at most `maxSize` |
| `ConnectionSpec.MostReached` | src/server_service/dbConnectionPool.cpp:99-124 | some run opens T + 1 connections, or as many as the pool starts with |
| `ConnectionSpec.OpenBoundedExact` | src/server_service/dbConnectionPool.cpp:108-118 | with any number of borrowers, some limit on open connections holds over all runs if and only if `maxSize` is not positive |
| `ConnectionPools.ConnectionPool.constructor` | src/server_service/dbConnectionPool.cpp:75-87 | `initSize` new connections are queued |
| `ConnectionPools.ConnectionPool.GetConnection` | src/server_service/dbConnectionPool.cpp:126-153 | null exactly when nothing is idle, else the front connection, idle at least as long as every other; the queue is what was behind it |
| `ConnectionPools.ConnectionPool.GiveBack` | src/server_service/dbConnectionPool.cpp:142-147 | the borrower's connection is refreshed and queued last; overwriting its time disturbs no queued one |
| `ConnectionPools.ConnectionPool.ProduceConnection` | src/server_service/dbConnectionPool.cpp:102-123 | a new connection is queued exactly when one is wanted |
| `ConnectionPools.ConnectionPool.ScanConnections` | src/server_service/dbConnectionPool.cpp:161-175 | the loop closes what `Scan` says, and never looks at the front of an empty queue |
| `Registry.ApplyRefines` | src/proxy/server_monitor.cc:216-462 | an operation on the two lists is refused exactly when it is on a map from server to status, otherwise does the same to it, and leaves no server listed twice |
| `Registry.ApplyOrder` | src/proxy/server_monitor.cc:216-462 | an operation puts its server at the end of the list it joins and takes it out of the other, and the other servers keep their order |
| `Registry.RunRefines` | src/proxy/server_monitor.cc:216-462 | so does every sequence of calls, whichever of them fail to open the file |
| `Registry.StepKeys` | src/proxy/server_monitor.cc:367-462 | a mark conserves the registered servers, a login adds exactly its server, a logout removes exactly its server |
| `Registry.RunCount` | src/proxy/server_monitor.cc:367-462 | over any run the lists together grow by the logins that succeeded less the logouts that did |
| `Registry.OverlapExact` | src/proxy/server_monitor.cc:369 | two calls that both load before either opens the file to store have the table, return codes and notices of some order if and only if one fails, or a mark overlaps a logout of the same server that stores after it |
| `Registry.CrashSeenTwice` | src/proxy/server_monitor.cc:216-268 | two overlapping calls that mark one server down both return 0 and every worker is told twice; in either order one returns -1 and they are told once |
| `Registry.InterruptedExact` | src/proxy/server_monitor.cc:294-309 | a call that loads while another has truncated the file has the outcome of some order if and only if it is a login and no server is left registered, or it fails in one of the orders |
| `Registry.LogoutMissed` | src/proxy/server_monitor.cc:294-309 | a logout that loads while its server is marked down returns -1, and the server stays; in either order it returns 0 |
| `Registry.OthersForgotten` | src/proxy/server_monitor.cc:294-309 | a login that loads during a mark leaves a table of its own server alone |
| `Registry.GarbledForgets` | src/proxy/server_monitor.cc:272-291 | a table that does not parse stays until a login overwrites it, and then holds what the calls make of an empty one |
| `Registry.ServerMonitor.LoginServer` | src/proxy/server_monitor.cc:367-413 | 0 and the server up, or -1 and nothing changed: unreadable, unwritable or already listed |
| `Registry.ServerMonitor.LogoutServer` | src/proxy/server_monitor.cc:416-462 | 0 and the server in neither list, or -1 and nothing changed |
| `Registry.ServerMonitor.SetServerUp` | src/proxy/server_monitor.cc:311-364 | 0, the server moved from down to the end of up and every worker told, or -1 and nothing changed or sent |
| `Registry.ServerMonitor.SetServerDown` | src/proxy/server_monitor.cc:216-268 | the same from up to down |

## Left out

- MemoryPoolAlloc: requests within 48 bytes of 2^64 are excluded, since the size arithmetic wraps (`AlignSizeSound`); the system's malloc is a parameter, one answer per call.
- MemoryPoolInit: arenas of 40 bytes or less, with no room for a chunk, are excluded (`InitExact`).
- AllocSound: growth by a short arena and requests whose size wraps are excluded, as `AllocKeepsExact` shows the pool unsound after them; so they are in `AllocUsed`, `GrowSound`, `FindFreeChunk` and `MemoryPoolAlloc`.
- Search: the arenas form a sequence, so the singly linked `next` pointers between arenas, and the arena records in front of each arena, are not in the modelled memory.
- InsertFront: the flag `is_free` (an int with padding) is one eight-byte cell.
- MemoryPoolFree: pointers that are not live blocks are excluded, as the source does not check them.
- The pthread mutex in the pool: each call is one step. `MemoryPoolDestroy`, the list counters and the usage ratio are not modelled.
- EventFits: the shipped constants and the LP64 size of an event, 1056 bytes, are used.
- ClientConnects: events come from the pool without their constructors run; the declared defaults of the two flags are taken as set at creation. `accept`, the blacklist and buffer set-up come before the modelled step.
- ClientSends: one step for one message that parses, so what is buffered behind a refused one is not captured (`Framing` models the loop). The text that goes to a server enters with its length and, in the worker, its words; how it comes from the message is not modelled, nor is the choice of server. Texts above 1047 bytes are excluded, as the pool's structure does not survive them.
- GatewayRuns.RunSound: texts of 1034 bytes or more are excluded, as in the other results on runs; `LongTexts` shows what they do, up to the first access to freed memory.
- ServerReplies: servers only echo `client_sock` and `pack_id` of requests they were sent, any number of times and at any time.
- PeriodEnds: the loop in `empty_count_cb` uses its iterator after erasing it; its evident intent is modelled.
- TimerFires: the clock is read once for both sweeps, and does not go back.
- RunOwnsItsEvents: client ids and pack_ids are unbounded, so 32-bit wrap-around of ids is not modelled; events are records named by their address, not bytes in the pool's memory (`PayloadStoreKeepsHeap` is the link).
- Pipe messages 2 to 4 (server list and shutdown), reconnection and the worker's own server list.
- TokenConserved: a notice is a count per pipe, sends and receives do not fail, and `accept` ends whatever its outcome.
- Reader.Arrive: where the source would read 1024 bytes or more into its buffer of 1024 the model stops; what happens then is undefined.
- FramesExact: likewise speaks of a stream up to where the buffer would be overrun.
- DeliveryExact: whether a message parses is any fixed predicate; the rate limiter's early return has the same shape but depends on time.
- NoOverselling: the database is assumed to lock the row exclusively until the transaction ends, commit and roll back atomically, and enforce the primary key on the worker's name; a rollback always succeeds. SQL text, the start-time and permission checks, and stock as a 32-bit integer are not modelled.
- Process: the solo session finds the lock free; sessions that wait for it are in `TicketSale`.
- CreatetaskView: a successful creation is one atomic initial state; creation that fails half-way is not modelled.
- GetConnection: one pass of the waiting loop; waiting and its time-out are a later pass or none, and wake-ups are not modelled. Failed connection attempts are queued like good ones, as in the source.
- ScanConnections: the clock is read once per scan; `initSize` is not negative.
- LoginServer: load and store are one step; `OverlapExact` and `InterruptedExact` are about what happens when they are not, for two calls. Whether the file opens is a parameter. A load that finds a table half written, and two stores at once, are not modelled.
- RunRefines: the lists are free of repeats at the start.
- libevent, sockets, JSON, fork, signals, message queues and shared-memory set-up; authentication; logger, `BlockingQueue` and `Buffer`; `client.cc`, `server_loginout.cc` and `http_helper.h`: interface code or easier members.
