# A verified model of the kernel

This project models the hard parts of a small xv6-style RISC-V kernel in Dafny and
proves what they are for: that a crash never tears a file system operation, that a
wakeup is never lost, that pages and disk blocks are owned once and come back, that a
page table is a map and a directory is a map, that the disk driver and a device that
does as it pleases never confuse two requests. Nothing here runs the kernel; every
statement is a theorem about the model, for all inputs. The log, the buffer cache, the
bitmap of the page allocator, the processes and the disk driver are taken step by step,
in all runs with any number of CPUs, operations or requests. Page tables, process memory
and files are taken call by call, in any order and number of calls that do not overlap.

Code that changes things in place is modelled in that form: classes whose methods
update fields, with the source's loops, proved against functions of the old state.
Code that several CPUs or a device run at once is modelled as a step relation, with
invariants kept by every step and theorems over whole runs. What a lock makes atomic is
one step, unless some other code changes the same word without that lock: then every
load and every store is a step. A disk write is one step, and a crash may fall between
any two of them. Where the code does not keep what it is for, a run or an input that
shows it is given together with the exact condition under which it does.

Six areas, each a group of files:

- **Log and buffer cache** (`Log`, `LogShown`, `LogRuns`, `LogCommits`, `LogDevice`,
  `BufferCache`, `BufferRace`, `BufferOrder`, `LogCache`, `LogCacheBufs`,
  `LogCacheSteps`, `LogCacheRuns`, `LogCacheCommits`, `LogCacheBread`, `LogCacheWork`,
  `LogCacheStart`, `BufferList`, `ListMemory`). The redo log is a header codec and a list
  of block writes. The commit point is the header write; recovery may itself be cut off
  any number of times. Over all interleavings of operations the log never overflows, only
  whole operations survive, and the last operation to end starts a commit that puts all
  of them on the disk. The buffer cache refines an array of blocks. The `LogCache` files
  put the log on top of the cache, every block through a locked buffer, and prove what
  each of the two had asked of the other, and that commits and recoveries can be brought
  to their end.
- **Buddy allocator** (`BuddyMath`, `BuddyInit`, `BuddyBits`, `BuddyBlocks`,
  `BuddyMaps`, `BuddyBoot`). `bd_init` cuts the free pages into maximal aligned blocks,
  and its own panic check is decided exactly. `bd_malloc` fails exactly when no block of
  the level that fits is wholly free; bitmaps and lists tell the same.
- **Processes** (`ProcModel`, `ProcLocks`, `ProcHand`, `ProcTree`, `ProcWake`,
  `ProcRuns`, `ProcScan`, `ProcCalls`, `ProcFamily`). Lock hand-off across `swtch`, sleep
  and wakeup, fork, exit and wait: what every run keeps, what each call comes to, and a
  run of a parent and a child from the start state to the reaped zombie.
- **Page tables and pages** (`PageAlloc`, `KmemRuns`, `PageTable`, `Vm`, `VmSpace`,
  `VmTeardown`, `VmBuild`, `VmLife`, `VmGrow`, `VmExec`, `VmProgram`, `VmUser`,
  `VmOwners`, `VmSystem`). The three-level tree against a flat map; how many pages each
  call needs, exactly; what is built is given back. Whatever processes are made, forked, replaced by
  programs, written to and freed, each page has one owner, no process changes another's
  memory, and in the end all pages are back.
- **Virtio block driver** (`VirtioDesc`, `VirtioModel`, `VirtioInv`, `VirtioSteps`,
  `VirtioRuns`, `VirtioCalls`). Split rings of section 2.6 of VIRTIO 1.1 with 16-bit indices that wrap.
- **Files, directories, image builder** (`FsBlocks`, `FsMap`, `FsDisk`, `FsFile`,
  `DirNames`, `Dir`, `FileTree`, `FileLinks`, `Mkfs`, `MkfsMain`, `MkfsPaths`). Block
  ownership, files as byte sequences, directories as maps, link counts, which changed
  blocks are logged. The image that `mkfs` leaves is the start state that all of these
  require, and its files are found by name in it.

`Common.dfy` holds what several areas share.

## Which code is modelled where the code departs from its intent

- `write_head` never stores the count of logged blocks (`riscv-os/kernel/disk/log.c:72-82`),
  which `read_head` reads. Both forms are modelled. With the count stored, as
  `docs/chapter4.5.md:682` has it, commits are atomic; as the code stands, a transaction is
  atomic at every crash point if and only if it changes at most one block.
- A cache hit raises `refcnt` twice, the second time after the cache lock is released
  (`riscv-os/kernel/disk/bio.c:43,46`). All changes of `refcnt` are modelled as a load and
  a store, of which `bcache.lock` keeps apart only those made under it. A run from `binit`
  is given in which a buffer that a process waits for is recycled. No buffer in use is
  recycled in any run if and only if there is one increment, as in `docs/chapter4.5.md:262`,
  or at most two hits on a buffer are ever between their increments.
- `bget` looks for a buffer to recycle from the front of the list, to which `brelse` moves
  buffers (`riscv-os/kernel/disk/bio.c:53,83-91`). So it takes the one released last, and
  not the least recently used one of `docs/chapter4.5.md:245,270`. In every run the two are
  the same if and only if there is only one unreferenced buffer or none of them was ever
  released; a run in which they differ is given.
- `bd_init` reads past a level's bitmap when the heap is exactly a power of two pages.
  The model reads the bits that lie there, and the panic is shown to fire exactly then
  (for eight pages or more) or without a whole page.
- `firstk` doubles a 64-bit size: it never stops for requests above 2^63 bytes.
- `kalloc` and `kfree` change a byte of the bitmap without `kmem.lock`
  (`riscv-os/kernel/mm/kalloc.c:102-107,126-128`). A run on two CPUs is given after which the
  rightful `kfree` of a page panics. List and bitmap agree in all runs if and only if no
  two updates of one byte overlap. No page is ever handed out twice, with or without that.
- `kalloc` sets a bitmap bit before it tests for null: the byte it changes lies in the
  bitmap if and only if the free list is not empty.
- The failure path of `uVmAlloc` frees by the old size only. Modelled as it stands: it
  panics if and only if, before the call, a page of its range is mapped, or there is not
  memory for all new pages and there is for the first one or a page above the old size is
  mapped. So `kexec` with memory for a page table but not for the program panics.
- `vmfault` supplies a page below the size that is not mapped. No operation leaves such a
  page, so that in no sequence of calls from boot it ever has one to supply.
- `writei` does not log a block into which `either_copyin` has copied some bytes before it
  fails. Modelled as it stands: all other changed blocks are logged.
- `bmap` indexes the buffer structure instead of its data
  (`riscv-os/kernel/disk/fs.c:138`). The model takes `bp->data`, as `itrunc` does.
- `dirlink` stores names cut to 13 bytes. Modelled as it stands: the name is found again
  if and only if it has fewer than 14 bytes.

## Model

| member | source | states |
|---|---|---|
| LogFormat.HeaderRoundTrip | riscv-os/kernel/disk/log.c:55-82 | reading a header that was written with its count gives back exactly the logged block numbers |
| LogFormat.CommitPoint | riscv-os/kernel/disk/log.c:115-142 | a disk cut off after k writes of a commit recovers to the old contents while k is at most the number of logged blocks, and to the new contents from the header write on |
| LogFormat.CommitClears | riscv-os/kernel/disk/log.c:129-142 | a complete commit leaves the new contents at home and an empty log |
| LogFormat.RecoverPrefix | riscv-os/kernel/disk/log.c:104-111 | a recovery cut off after any write leaves a disk that still recovers to the same contents |
| LogFormat.RecoverMeans | riscv-os/kernel/disk/log.c:85-111 | a complete recovery puts the recovered contents into every home block and empties the log |
| LogFormat.RebootsKeepMeaning | riscv-os/kernel/disk/log.c:104-111 | any number of interrupted recoveries in a row change nothing about what the disk recovers to |
| LogFormat.CrashAtomicity | riscv-os/kernel/disk/log.c:55-142 | a commit cut off anywhere, then any number of interrupted recoveries, then one complete recovery: the home blocks are all as before the transaction or all as after it |
| LogShown.RecoveryDoesNothing | riscv-os/kernel/disk/log.c:55-82 | without a stored count, recovery installs nothing and leaves the disk as the crash left it |
| LogShown.OneChangeSuffices | riscv-os/kernel/disk/log.c:72-142 | without a stored count, a transaction that changes at most one block is all or nothing at every crash point |
| LogShown.TwoChangesTear | riscv-os/kernel/disk/log.c:72-142 | without a stored count, a transaction that changes two blocks has a crash point that tears it |
| LogShown.ShownAtomicIff | riscv-os/kernel/disk/log.c:72-142 | the two together: atomic at every crash point if and only if at most one block changes |
| LogRuns.RoomToLog | riscv-os/kernel/disk/log.c:30-51 | an operation below its limit of distinct blocks never meets a full log |
| LogRuns.SpaceKept | riscv-os/kernel/disk/log.c:161-201 | logged blocks plus unused reservations of running operations stay within the log, through every step |
| LogRuns.OpsKept | riscv-os/kernel/disk/log.c:161-201 | no operation ever has updates on both sides of the durable point |
| LogRuns.ContentsKept | riscv-os/kernel/disk/log.c:30-142 | every step, disk writes and crashes included, keeps what the disk recovers to equal to a prefix of the history of updates |
| LogRuns.NoPanic | riscv-os/kernel/disk/log.c:30-51 | in every run no log_write or end_op panic is reached and a commit runs only while no operation is outstanding |
| LogRuns.WholeOperationsSurvive | riscv-os/kernel/disk/log.c:129-201 | stop any run after any step and reboot as often as you like: what is recovered is a prefix of the history in which every operation has ended and no operation is cut in two |
| LogRuns.CommitIsDurable | riscv-os/kernel/disk/log.c:178-201 | in every run, whenever the log is empty and neither commit nor recovery runs, as after a finished commit, the whole history is durable |
| LogRuns.ReadersSeeAllUpdates | riscv-os/kernel/disk/log.c:30-51 | as long as no crash intervenes a reader sees every update made so far |
| LogCommits.LastOpCommits | riscv-os/kernel/disk/log.c:178-201 | in every run the end_op that takes outstanding from 1 to 0 starts a commit of every logged block, with all its writes still to do; any other end_op starts none |
| LogCommits.OnlyLastOpCommits | riscv-os/kernel/disk/log.c:178-201 | in every run nothing else starts a commit |
| LogCommits.CommitTakesEffect | riscv-os/kernel/disk/log.c:129-201 | when the commit so started has finished, with no crash between, every update made before it is durable and in its home block on the disk; between lie 2n + 2 block writes for n logged blocks, none for an empty log |
| LogCommits.CommitPossible | riscv-os/kernel/disk/log.c:129-201 | every run with one operation left can go on with its end_op and block writes to such an end |
| LogCommits.RecoveryTakesEffect | riscv-os/kernel/disk/log.c:104-111 | when the recovery after a crash has finished, the home blocks hold exactly the updates that were durable at the crash, readers see them, and operations can begin |
| LogCommits.FirstOperation | riscv-os/kernel/disk/log.c:161-201 | a run from an empty log: an operation changes a block, ends, and the block is on the disk |
| LogDevice.WriteAheadLog.LogWrite | riscv-os/kernel/disk/log.c:30-51 | absorbs a block that is logged already, else appends it; panics exactly for a full log or outside an operation |
| LogDevice.WriteAheadLog.WriteHead | riscv-os/kernel/disk/log.c:72-82 | one write of the header block, encoded with or without the count |
| LogDevice.WriteAheadLog.ReadHead | riscv-os/kernel/disk/log.c:55-70 | the in-memory header becomes the decoded one, whatever the disk holds, unless the count does not fit it or an entry names no home block; a negative count is none |
| LogDevice.WriteAheadLog.InstallTrans | riscv-os/kernel/disk/log.c:85-102 | its writes copy the logged blocks home in order |
| LogDevice.WriteAheadLog.WriteLog | riscv-os/kernel/disk/log.c:115-127 | its writes copy the cached blocks into the log in order |
| LogDevice.WriteAheadLog.Commit | riscv-os/kernel/disk/log.c:129-142 | its block writes are exactly those whose prefixes CrashAtomicity quantifies over, and readers notice nothing |
| LogDevice.WriteAheadLog.RecoverFromLog | riscv-os/kernel/disk/log.c:104-111 | its block writes are exactly those of the recovery that the crash theorems are about, for every header that can be followed |
| LogDevice.WriteAheadLog.TryBeginOp | riscv-os/kernel/disk/log.c:161-176 | an operation starts exactly when no commit runs and a full operation more would fit |
| LogDevice.WriteAheadLog.EndOp | riscv-os/kernel/disk/log.c:178-201 | the last operation out commits; the panic is for a commit already running |
| LogDevice.InstallsOfLogged | riscv-os/kernel/disk/log.c:85-127 | installing what has just been logged changes no home block in the cache |
| BufferCache.Search | riscv-os/kernel/disk/bio.c:34-72 | the two loops of bget find the first match from the front, else the first unreferenced buffer from the front, else panic |
| BufferCache.CountsKept | riscv-os/kernel/disk/bio.c:34-130 | with every change of refcnt a load and a store, in one-increment code or with at most two hits between the increments, refcnt stays high enough at every stage of every access |
| BufferCache.DistinctKept | riscv-os/kernel/disk/bio.c:34-72 | no block is ever cached in two buffers, however the counts race |
| BufferCache.RefinesKept | riscv-os/kernel/disk/bio.c:97-130 | every step keeps the cache and disk together equal to a plain array of blocks |
| BufferCache.NeverRecycledInUse | riscv-os/kernel/disk/bio.c:53-72 | in every run of such code a recycled buffer is not held, awaited, being released or pinned |
| BufferCache.BreadReturnsLatest | riscv-os/kernel/disk/bio.c:97-110 | in every run of such code a holder finds what the block was last given, in the only buffer that has the block |
| BufferCache.CountIsExact | docs/chapter4.5.md:256-268 | with one increment, in every run refcnt is exactly the number of users, and 0 exactly for a buffer that nobody uses |
| BufferRace.RecycledInUse | riscv-os/kernel/disk/bio.c:38-94 | a run from binit of the code as it stands, with three hits on one buffer, ends with a buffer recycled that a process waits for |
| BufferRace.SafeIff | riscv-os/kernel/disk/bio.c:34-94 | in no run is a buffer in use recycled, if and only if a hit raises refcnt once or at most two hits on one buffer are ever between the two increments |
| BufferRace.HitsLeak | riscv-os/kernel/disk/bio.c:43-47 | a hit that meets no other leaves refcnt one too high for good |
| BufferOrder.OrderByRecency | riscv-os/kernel/disk/bio.c:74-94 | in every run the list is in the order of the last release, the last released first |
| BufferOrder.RecyclesMostRecent | riscv-os/kernel/disk/bio.c:51-67 | in every run the buffer that a miss recycles was released no earlier than any other unreferenced one |
| BufferOrder.LruIff | docs/chapter4.5.md:240-272 | it is the least recently used one if and only if it is the only unreferenced one or none of them was ever released |
| BufferOrder.LruFails | riscv-os/kernel/disk/bio.c:51-94 | a run after which the next miss recycles the buffer just used and not the one never used |
| LogCache.JobWrites | riscv-os/kernel/disk/log.c:72-142 | the copying loops of commit and recovery, from buffer to buffer, make exactly the block writes of the crash theorems, in their order |
| LogCache.UnpinnedOnDisk | riscv-os/kernel/disk/log.c:85-127 | a home block that is not pinned is on the disk as readers are to find it |
| LogCache.ReleaseClean | riscv-os/kernel/disk/log.c:30-51 | a buffer without unlogged changes may be released: it is on the disk or pinned |
| LogCache.UnpinClean | riscv-os/kernel/disk/log.c:85-102 | install_trans unpins a buffer that is pinned and that agrees with the disk |
| LogCacheSteps.InvKept | riscv-os/kernel/disk/log.c:30-201 | every step of operations, commit, recovery, cache and crash keeps the joint invariant of log and cache |
| LogCacheRuns.LogMeetsDemands | riscv-os/kernel/disk/log.c:30-142 | in every run of the two together every release and every unpin meets what the cache demands of its users |
| LogCacheRuns.PinnedWhileLogged | riscv-os/kernel/disk/log.c:41-49 | in every run a buffer is pinned once while its block is logged and not yet installed, and otherwise not; a pinned block is in the cache |
| LogCacheRuns.ReadersFindUpdates | riscv-os/kernel/disk/log.c:30-142 | in every run a process that has a block, with no change of its own in progress, finds every update logged so far |
| LogCacheRuns.CrashSafe | riscv-os/kernel/disk/log.c:30-201 | stop any run of the two together anywhere and reboot as often as you like: the disk recovers to the updates of whole operations that had ended, and to no others |
| LogCacheCommits.LastOpCommits | riscv-os/kernel/disk/log.c:178-201 | with the cache below: in every run the last end_op starts a commit of every logged block, and any other end_op none |
| LogCacheCommits.CommitTakesEffect | riscv-os/kernel/disk/log.c:129-201 | when it is through, whatever else used the cache meanwhile, the disk under the cache holds in each home block what replaying all updates gives |
| LogCacheCommits.RecoveryTakesEffect | riscv-os/kernel/disk/log.c:104-111 | when a recovery is through, the disk under the cache holds exactly the updates durable at the crash, and the log is empty |
| LogCacheBread.Bread | riscv-os/kernel/disk/bio.c:34-110 | with one increment and an unreferenced buffer, bread can be brought to its end: the block is held in a valid buffer with refcnt one higher, and no other buffer and no block changes |
| LogCacheBread.Brelse | riscv-os/kernel/disk/bio.c:74-94 | so can brelse, which lowers refcnt by one and changes no block |
| LogCacheWork.CommitPossible | riscv-os/kernel/disk/log.c:85-201 | with one increment and two unreferenced buffers, every run with one operation left can go on, bread by bread, through end_op and the copying loops to a disk that holds all updates at home |
| LogCacheStart.UpdatePossible | riscv-os/kernel/disk/log.c:30-51 | an operation below its limit can always read, change, log and release a block, and this is one step of the log |
| LogCacheStart.RecoveryPossible | riscv-os/kernel/disk/log.c:55-111 | after any crash, with two buffers or more, recovery can be brought to its end: header read, blocks copied home, and the disk holds exactly what was durable |
| LogCacheStart.FirstOperation | riscv-os/kernel/disk/log.c:161-201 | a run from boot with three buffers: begin_op, bread, change, log_write, brelse, end_op and commit; the block is on the disk under the cache |
| BufferList.Build | riscv-os/kernel/disk/bio.c:17-31 | binit links all buffers into one ring, the last linked first |
| BufferList.Relink | riscv-os/kernel/disk/bio.c:74-94 | brelse moves a buffer to the front and keeps the order of the others |
| ListMemory.Memory.Init | riscv-os/kernel/lib/list.c:12-17 | an empty ring; other lists in the same memory are untouched |
| ListMemory.Memory.IsEmpty | riscv-os/kernel/lib/list.c:19-22 | true exactly for the empty list |
| ListMemory.Memory.Remove | riscv-os/kernel/lib/list.c:24-28 | the ring without its k-th cell, linked both ways; other lists untouched |
| ListMemory.Memory.Pop | riscv-os/kernel/lib/list.c:30-37 | the first cell and the rest of the ring; panics exactly on an empty list |
| ListMemory.Memory.Push | riscv-os/kernel/lib/list.c:39-47 | the cell in front of the old ring; other lists untouched |
| BuddyMath.Log2 | riscv-os/kernel/lib/math.c:8-15 | the floor logarithm, and 0 for 0 |
| BuddyInit.InsideIff | riscv-os/kernel/mm/buddy.c:41-73 | a block lies within the free pages exactly when its index is between blk_index_next of the start and blk_index of the end |
| BuddyInit.MaximalIff | riscv-os/kernel/mm/buddy.c:80-111 | per level, the blocks inside the free pages whose parent is not are the odd left end and the odd right end |
| BuddyInit.AllPagesBelowTop | riscv-os/kernel/mm/buddy.c:96-111 | the maximal blocks of all levels cover exactly the free pages |
| BuddyInit.PairsApart | riscv-os/kernel/mm/buddy.c:96-111 | the left and the right pair of a level never coincide, so no block is pushed twice |
| BuddyBits.MetaBound | riscv-os/kernel/mm/buddy.c:168-215 | the allocator's metadata take one page or at most an eighth of the heap |
| BuddyBoot.LayOut | riscv-os/kernel/mm/buddy.c:180-215 | the records and bitmaps follow each other without a gap, so that a bit past the end of a level is one of the next level, and end at a page boundary after MetaPages pages |
| BuddyBits.SpilledPair | riscv-os/kernel/mm/buddy.c:96-111 | for a heap of exactly a power of two pages the right pair reads the next level's bits, and which block that pushes |
| BuddyBoot.CheckPasses | riscv-os/kernel/mm/buddy.c:228-235 | the pages counted as free equal those there are, if and only if the heap is not a power of two of eight pages or more |
| BuddyBoot.BuddyHeap.Mark | riscv-os/kernel/mm/buddy.c:114-134 | marks, at every level, exactly the blocks that touch the range, as allocated and above the pages as split |
| BuddyBoot.BuddyHeap.InitFreePair | riscv-os/kernel/mm/buddy.c:80-93 | pushes the one unmarked block of a pair that is half marked, and counts its pages |
| BuddyBoot.BuddyHeap.InitFree | riscv-os/kernel/mm/buddy.c:96-111 | every list and the page count after the loop over levels |
| BuddyBoot.BuddyHeap.Prepare | riscv-os/kernel/mm/buddy.c:168-227 | number of levels, metadata, unavailable end and the marked bitmaps |
| BuddyBoot.BuddyHeap.Init | riscv-os/kernel/mm/buddy.c:168-239 | panics exactly for less than a page or a power of two of eight pages or more; otherwise every list holds the maximal blocks of its level, once each |
| BuddyBlocks.InitInv | riscv-os/kernel/mm/buddy.c:96-111 | such lists satisfy the allocator's invariant: blocks inside the heap, disjoint, covering it, no two free buddies |
| BuddyBlocks.TakeKeeps | riscv-os/kernel/mm/buddy.c:270-271 | taking a block off a list keeps the invariant |
| BuddyBlocks.SplitKeeps | riscv-os/kernel/mm/buddy.c:272-279 | splitting a taken block keeps the invariant |
| BuddyBlocks.InOneFreeBlock | riscv-os/kernel/mm/buddy.c:254-285 | a wholly free aligned block lies inside a single block on a free list |
| BuddyBlocks.RequestCanBeMet | riscv-os/kernel/mm/buddy.c:258-267 | a non-empty list at some level from k up exists exactly when some block of level k is wholly free |
| BuddyMaps.InitMaps | riscv-os/kernel/mm/buddy.c:114-134 | after bd_init an alloc bit is clear exactly for free blocks and their parts, and the split bits are the alloc bits above the pages |
| BuddyMaps.TakeMaps | riscv-os/kernel/mm/buddy.c:270-271 | taking a block sets one alloc bit and keeps: clear exactly for free blocks and for parts of free or handed-out ones |
| BuddyMaps.SplitMaps | riscv-os/kernel/mm/buddy.c:272-279 | so does a turn of the splitting loop; a split bit is set exactly for an allocated block that is not in use as a whole |
| BuddyMaps.LevelInSplit | riscv-os/kernel/mm/buddy.c:272-279 | the level of a block in use can be read off the split bitmaps from its address alone |
| BuddyBoot.FirstK | riscv-os/kernel/mm/buddy.c:242-252 | the smallest level whose blocks hold the request |
| BuddyBoot.FirstKStops | riscv-os/kernel/mm/buddy.c:242-252 | the 64-bit loop stops if and only if the request is at most 2^63 bytes |
| BuddyBoot.BuddyHeap.Malloc | riscv-os/kernel/mm/buddy.c:254-285 | fails exactly when no block of the fitting level is wholly free; otherwise returns an aligned block of that level, not handed out before, and free pages drop by its size; bitmaps stay in step with lists and handed-out blocks |
| ProcLocks.CanRelease | riscv-os/kernel/lib/spinlock.c:46-60 | a lock that the code releases is held by this CPU and counted in noff |
| ProcLocks.CanTake | riscv-os/kernel/lib/spinlock.c:25-44 | acquire never finds the lock held by its own CPU |
| ProcLocks.LockedOut | riscv-os/kernel/proc/proc.c:154-201 | a CPU that holds a slot's lock has the hand-over of that slot to itself |
| ProcHand.ZombieParked | riscv-os/kernel/proc/proc.c:541-555 | a zombie whose lock kwait has taken has left its kernel stack |
| ProcHand.BaseKept | riscv-os/kernel/proc/proc.c:107-209 | every step keeps lock ownership, hand-off and fork bookkeeping |
| ProcTree.TreeKept | riscv-os/kernel/proc/proc.c:211-613 | every step keeps parents alive, pids distinct and the scan facts of kwait and reparent |
| ProcWake.WakeKept | riscv-os/kernel/proc/proc.c:107-138 | every step keeps: a dozing parent of a zombie is still to be woken by the thread that holds wait_lock |
| ProcRuns.NoLostWakeup | riscv-os/kernel/proc/proc.c:479-569 | in every run, whenever wait_lock is free, no process sleeping in kwait has a zombie child |
| ProcRuns.HandOff | riscv-os/kernel/proc/proc.c:154-209 | in every run acquire, release and sched never panic; a slot is with at most one CPU, which holds exactly its lock while switching; a RUNNING slot is on a CPU |
| ProcRuns.FreedBy | riscv-os/kernel/proc/proc.c:237-253 | only kwait on a zombie child and a failed kfork free a slot |
| ProcRuns.FreedOffCpu | riscv-os/kernel/proc/proc.c:541-555 | a slot becomes UNUSED only when no CPU runs it or is returning from it |
| ProcRuns.TreeIsSound | riscv-os/kernel/proc/proc.c:479-613 | while initproc lives, every parent link leads to a living process, no chain of parents returns to its start, and occupied slots have distinct pids |
| ProcRuns.ReapedOnce | riscv-os/kernel/proc/proc.c:528-569 | a pid is returned by at most one kwait, and not while a slot still has it |
| ProcScan.LinkChangedBy | riscv-os/kernel/proc/proc.c:479-613 | whose child a slot is changes only when kfork sets it, when kexit hands it to initproc, and when the slot is freed |
| ProcScan.WaitReturns | riscv-os/kernel/proc/proc.c:528-569 | in every run kwait comes to its end only with the pid of a zombie child, whose slot it frees, or told to fail, or when no slot has it as parent |
| ProcCalls.WaitSleeps | riscv-os/kernel/proc/proc.c:561-567 | in every run a kwait that has scanned all slots goes to sleep on itself, with no zombie child then, if and only if it has a child and is not told to fail; else it ends without having reaped anyone |
| ProcCalls.ZombieReturned | riscv-os/kernel/proc/proc.c:541-556 | in every run a zombie stops being one only in a kwait of its parent, which returns its pid and frees its slot |
| ProcCalls.OrphansToInit | riscv-os/kernel/proc/proc.c:479-525 | in every run, when an exiting process is about to become a zombie, every child it had when it began is a child of initproc |
| ProcCalls.ExitEnds | riscv-os/kernel/proc/proc.c:505-525 | it then becomes a zombie, lets wait_lock go and leaves its CPU, and never runs again |
| ProcCalls.ForkClaims | riscv-os/kernel/proc/proc.c:313-326 | allocproc takes the first unused slot it comes to, under a pid never used before |
| ProcCalls.ForkReturns | riscv-os/kernel/proc/proc.c:572-613 | in every run kfork ends only with a RUNNABLE child of the caller, or told to fail with the slot free again, or with no slot found |
| ProcCalls.SchedulerRuns | riscv-os/kernel/proc/proc.c:154-180 | a scheduler that has locked a RUNNABLE slot runs it, holding its lock; it lets go of any other slot |
| ProcCalls.StateChangedBy | riscv-os/kernel/proc/proc.c:107-613 | the life of a slot in every run: which step, by whom, under which state, can change its state, and into which |
| ProcCalls.CallsBegin | riscv-os/kernel/proc/proc.c:107-613 | how each call starts in every run: kwait and kexit at the first slot with wait_lock, kfork at the first slot, other code with its own lock, on which it sleeps or which it releases |
| ProcCalls.YieldGivesUp | riscv-os/kernel/proc/proc.c:203-209 | yield leaves the process RUNNABLE and the CPU with the scheduler |
| ProcCalls.SleepGivesUp | riscv-os/kernel/proc/proc.c:107-123 | sleep leaves it SLEEPING on its channel, with the condition lock let go after its own lock is taken |
| ProcCalls.WakesInto | riscv-os/kernel/proc/proc.c:107-123 | a sleeper that is run again takes its condition lock again, and kwait scans anew |
| ProcCalls.WakeupWakes | riscv-os/kernel/proc/proc.c:126-138 | in every run a wakeup makes a sleeper RUNNABLE and changes nobody else; that of kexit does so to a slot exactly when it sleeps on the parent |
| ProcCalls.HoldsExactly | riscv-os/kernel/lib/spinlock.c:25-60 | in every run a CPU holds exactly the locks of its thread's place in the code and noff counts them; the lock acquired next is not among them, and sched is called with the slot's own lock alone |
| ProcCalls.NeverStuck | riscv-os/kernel/proc/proc.c:107-613 | in every run a thread on a CPU can go on, unless the one lock it spins for is held by another CPU |
| ProcCalls.SchedulerNeverStuck | riscv-os/kernel/proc/proc.c:126-201 | in every run so can a scheduler, and a sleeper whose lock is free can be woken |
| ProcFamily.ParentSleeps | riscv-os/kernel/proc/proc.c:528-613 | a run from the start state with two slots and one CPU: a parent forks and sleeps in kwait while its child is runnable |
| ProcFamily.ParentReturns | riscv-os/kernel/proc/proc.c:491-569 | the same run goes on: the child exits, the parent is woken, frees the slot and returns the pid of the child |
| PageAlloc.Kmem.constructor | riscv-os/kernel/mm/kalloc.c:58-84 | after freerange exactly the whole pages behind the bitmap are free |
| PageAlloc.Kmem.Free | riscv-os/kernel/mm/kalloc.c:90-111 | panics exactly for a page not managed or free already; otherwise the page is in front of the list and its bit is clear, between calls that do not overlap |
| PageAlloc.Kmem.Alloc | riscv-os/kernel/mm/kalloc.c:116-133 | the page in front of the list, filled with junk, or null exactly when the list is empty; list and bitmap agree page by page, between calls that do not overlap |
| PageAlloc.Kmem.AllocShown | riscv-os/kernel/mm/kalloc.c:116-133 | with the null test after the bitmap update, as it stands, the byte changed lies in the bitmap if and only if the list is not empty; then it does what Alloc does |
| KmemRuns.HandedOutOnce | riscv-os/kernel/mm/kalloc.c:116-133 | on any number of CPUs, in every run, kalloc hands out only pages that nobody has and that no other call is about |
| KmemRuns.AgreeKept | riscv-os/kernel/mm/kalloc.c:91-133 | as long as no two updates of one byte overlap, every step keeps list and bitmap in agreement and no kfree panics |
| KmemRuns.RightfulFreePanics | riscv-os/kernel/mm/kalloc.c:102-128 | a run on two CPUs, whose updates of one byte overlap, in which the kfree of a page by its owner panics |
| KmemRuns.SoundIff | riscv-os/kernel/mm/kalloc.c:91-133 | list and bitmap agree and no kfree panics in all runs, if and only if no two updates of one byte ever overlap |
| KmemRuns.NoneLost | riscv-os/kernel/mm/kalloc.c:91-133 | in every run, at any time, the pages free at first are exactly those on the list, handed out, or in the hands of a call |
| KmemRuns.NeverStuck | riscv-os/kernel/mm/kalloc.c:91-133 | in every run a call that has not panicked can go on, and an idle CPU can allocate while there is a page and free any page handed out |
| PageTable.PxOfVpn | riscv-os/include/riscv.h:352-380 | the three index fields of an address are functions of its page number |
| PageTable.IndicesNamePage | riscv-os/include/riscv.h:352-380 | three 9-bit indices determine the page number |
| PageTable.PteFields | riscv-os/include/riscv.h:352-380 | frame and flags packed into an entry are read back |
| PageTable.WriteLeaf | riscv-os/kernel/mm/vm.c:125-132 | storing a leaf entry changes the flat map at that page and nowhere else |
| PageTable.GrowMid | riscv-os/kernel/mm/vm.c:85-98 | hanging a cleared table under the root changes no mapping |
| PageTable.GrowLeaf | riscv-os/kernel/mm/vm.c:85-98 | nor does hanging one under a level-1 table |
| Vm.Walk | riscv-os/kernel/mm/vm.c:75-102 | finds the level-0 table of a page; with alloc it adds the missing tables of the path, changes no mapping and fails if and only if free pages are fewer than these; without, it changes nothing |
| Vm.MapPages | riscv-os/kernel/mm/vm.c:107-143 | adds exactly its range to the flat map, taking exactly the missing tables, or stops at the first page already mapped (panic) or out of memory, with exactly the pages before it added |
| VmSpace.UnmapRange | riscv-os/kernel/mm/vm.c:320-339 | removes exactly its range from the flat map; with do_free exactly the range's frames become free; kfree never panics |
| VmTeardown.FreePgtbl | riscv-os/kernel/mm/vm.c:344-359 | gives back exactly the tables of the subtree; panics if and only if a leaf is still mapped in it |
| VmBuild.PutPage | riscv-os/kernel/mm/vm.c:385-394 | takes, fills and maps one page, or gives it back; it fails if and only if free pages are fewer than one and the missing tables; nothing in use outside the tree changes |
| VmBuild.TryPut | riscv-os/kernel/mm/vm.c:414-426 | the same for a page that may be mapped already, which makes mapPages panic |
| VmBuild.Copy | riscv-os/kernel/mm/vm.c:374-401 | on success every old page has a copy with the same contents and flags in a frame of its own; on failure no mapping has changed and all frames are free again |
| VmBuild.CopyIsApart | riscv-os/kernel/mm/vm.c:374-401 | copies are in other frames than the originals, which still hold what they held |
| VmBuild.UnfillAll | riscv-os/kernel/mm/vm.c:398-400 | unmapping a half-filled range gives back all that was taken but tables |
| VmLife.VmFree | riscv-os/kernel/mm/vm.c:366-372 | panics if and only if a page beyond the size is mapped; otherwise all tables and frames of the space are free and no other page in use has changed |
| VmLife.ProcPagetable | riscv-os/kernel/proc/proc.c:255-276 | maps trampoline and trap frame in a fresh tree of three pages, or gives back every page it took, if and only if there were fewer than three; its second failure path is never taken |
| VmLife.KernelPages | riscv-os/kernel/proc/proc.c:255-276 | such a space has these two pages only, and the user can reach neither; the trampoline can be executed and not written, the trap frame written and not executed |
| VmLife.FreeUserVM | riscv-os/kernel/proc/proc.c:222-235 | a process's space is freed without a panic, its trampoline and trap frame pages excepted |
| VmLife.FreeProc | riscv-os/kernel/proc/proc.c:237-253 | exactly the pages of the process become free, and no other page in use changes |
| VmLife.AllocProc | riscv-os/kernel/proc/proc.c:313-348 | a trap frame page and an empty space out of free pages, or, if and only if there were fewer than four, all that was taken is free again |
| VmLife.Fork | riscv-os/kernel/proc/proc.c:572-590 | trap frame, table and copy for a child; whatever fails on the way, all that was taken is free again and no page in use has changed |
| VmLife.ForkThenFree | riscv-os/kernel/proc/proc.c:313-350 | from fork to free, for every outcome the same pages are free as before, and with enough memory the fork succeeds |
| VmGrow.VmAlloc | riscv-os/kernel/mm/vm.c:406-431 | adds exactly the new pages, cleared, each in its own frame; with the space and the number of free pages before the call it is decided whether it grows, drops the space below the old size, or panics, each if and only if |
| VmGrow.PanicInput | riscv-os/kernel/mm/vm.c:406-431 | an empty space, three free pages and two new pages: a panic; with four free pages, none |
| VmGrow.PanicFromBoot | riscv-os/kernel/mm/vm.c:406-431 | the same after freerange, uVmCreate and uVmAlloc |
| VmExec.GrowTo | riscv-os/kernel/mm/vm.c:406-431 | growing the space of a program: a panic if and only if free pages do not suffice for all pages asked for and their tables |
| VmExec.LoadPages | riscv-os/kernel/lib/exec.c:25-44 | loadseg lays the file pages over the image, and never finds a page missing |
| VmExec.ClearUser | riscv-os/kernel/lib/exec.c:124-125 | uvmclear takes the guard page from the user and changes nothing else |
| VmExec.LoadSegments | riscv-os/kernel/lib/exec.c:87-104 | the space holds the segments laid over each other in order, or the header that is refused; VmProgram says page by page what that is |
| VmExec.PushAll | riscv-os/kernel/lib/exec.c:130-148 | the stack pointer after the arguments and the array of pointers to them, or none when they do not fit; VmProgram says where they lie |
| VmExec.MakeStack | riscv-os/kernel/lib/exec.c:118-150 | guard page and stack above the segments |
| VmProgram.LoadedSize | riscv-os/kernel/lib/exec.c:87-104 | the size of a loaded program is the end of the segment that ends last |
| VmProgram.LoadedIff | riscv-os/kernel/lib/exec.c:87-104 | a program is refused if and only if a segment is: its header is bad, the file is too short for it, or nothing is allocated for it |
| VmProgram.LoadedPage | riscv-os/kernel/lib/exec.c:25-44 | page v holds the page of the file that the last segment with a file page there puts at v, counted from its own vaddr |
| VmProgram.LoadedZero | riscv-os/kernel/lib/exec.c:87-104 | a page below the size that no file page covers holds zeros |
| VmProgram.LoadedFlags | riscv-os/kernel/lib/exec.c:87-104 | a page may be written and executed as the first segment that reaches it says |
| VmProgram.StartPage | riscv-os/kernel/lib/exec.c:118-127 | above the segments one page that the user may not touch, then exactly the stack pages, and nothing else |
| VmProgram.ArgumentAt | riscv-os/kernel/lib/exec.c:130-141 | each argument lies, with its terminator, below the one before it, 16-byte aligned and above the stack base |
| VmProgram.ArgumentsApart | riscv-os/kernel/lib/exec.c:130-141 | no two arguments share a byte |
| VmProgram.PointersBelow | riscv-os/kernel/lib/exec.c:142-150 | the pointers and the null pointer lie from the new stack pointer on, below all arguments; it is a multiple of 16 and not below the stack base |
| VmProgram.StackFits | riscv-os/kernel/lib/exec.c:130-150 | arguments that need no more than the stack has, rounding included, are not refused |
| VmExec.BuildImage | riscv-os/kernel/lib/exec.c:77-178 | kexec up to the switch: panics if and only if there is memory for a page table but not for the program; else the space is exactly the program's, or all that was taken is free again |
| VmExec.ExecMoves | riscv-os/kernel/lib/exec.c:160-166 | the switch: the new pages are the process's, the old ones free, and no others change hands |
| VmUser.Va2Pa | riscv-os/kernel/mm/vm.c:296-314 | the frame of a page, or 0 exactly when it is not mapped for the user |
| VmUser.VmFault | riscv-os/kernel/mm/vm.c:268-292 | supplies a cleared page for an unmapped page below the size; the process's view of its memory does not change |
| VmUser.Copyin | riscv-os/kernel/mm/vm.c:223-249 | returns exactly the bytes that the process would read itself, and fails only where it may not read or without memory |
| VmUser.Copyinstr | riscv-os/kernel/proc/proc.c:419-454 | returns exactly the string that stands in the mapped user bytes, if it ends within the limit |
| VmUser.ScanPage | riscv-os/kernel/proc/proc.c:433-446 | the inner loop: bytes of one page up to a zero |
| VmUser.StrMeans | riscv-os/kernel/proc/proc.c:419-454 | what copyinstr returns are the mapped user bytes from the address on, up to and with the first zero |
| VmUser.StrFound | riscv-os/kernel/proc/proc.c:419-454 | and it returns a string whenever such a zero stands within the limit |
| VmUser.WordOfBytes | riscv-os/kernel/mm/vm.c:223-249 | the bytes that are copied are those of the words of the page, lowest first |
| VmOwners.Transfer | riscv-os/kernel/proc/proc.c:237-253 | when pages only move between the free list and one process, every page still has exactly one owner and every other process keeps its memory and registers |
| VmSystem.ProcTable.constructor | riscv-os/kernel/proc/proc.c:141-152 | at boot the pages in use are set aside for good and all others are free |
| VmSystem.ProcTable.FindUnused | riscv-os/kernel/proc/proc.c:316-324 | the first unused slot, if there is one |
| VmSystem.ProcTable.Spawn | riscv-os/kernel/proc/proc.c:313-350 | one owner for every page is kept; the first unused slot gets an empty space of four pages; it fails only without a slot or with fewer than four free pages, and then nothing was taken |
| VmSystem.ProcTable.Fork | riscv-os/kernel/proc/proc.c:572-592 | one owner for every page is kept; the child's memory equals the parent's page for page and its registers but a0, which is 0; no other process changes |
| VmSystem.ProcTable.Fault | riscv-os/kernel/trap/trap.c:168-171 | one owner for every page is kept; neither the faulting process nor any other sees a change; while no process has a hole, no page is supplied |
| VmSystem.ProcTable.UserStore | riscv-os/kernel/mm/vm.c:296-314 | a store by user code succeeds exactly on a page mapped for the user and writable; it changes that page of that process and nothing else in any process |
| VmSystem.ProcTable.Exec | riscv-os/kernel/lib/exec.c:77-178 | one owner for every page is kept; the process has exactly the program's memory (page by page in VmProgram), size, entry point and stack pointer, or runs on unchanged; no other process changes; panics if and only if the program does not fit into memory that has room for its page table |
| VmSystem.ProcTable.Switch | riscv-os/kernel/lib/exec.c:160-166 | the trap frame is set and exactly the old space is freed |
| VmSystem.NoHole | riscv-os/kernel/mm/vm.c:268-292 | in a process without holes every page below the size is mapped; all operations keep processes so |
| VmSystem.FirstStore | riscv-os/kernel/lib/exec.c:77-178 | from boot with fourteen free pages a process is made, executes a program and stores to its memory |
| VmSystem.ProcTable.Free | riscv-os/kernel/proc/proc.c:544-556 | freeing a zombie frees exactly the pages it owns and changes no other process |
| VmSystem.ProcTable.AllFreed | riscv-os/kernel/proc/proc.c:237-253 | when no process is left, whatever came before, the free pages are exactly those that were free at boot |
| VirtioDesc.Table.Alloc | riscv-os/kernel/driver/virtio_disk.c:156-166 | the first free descriptor, or -1 exactly when none is free |
| VirtioDesc.Table.Free | riscv-os/kernel/driver/virtio_disk.c:169-182 | panics exactly for an index out of range or a free descriptor; otherwise cleared and free |
| VirtioDesc.Table.FreeChain | riscv-os/kernel/driver/virtio_disk.c:185-197 | frees exactly the descriptors of a chain of any length, without a panic |
| VirtioDesc.Table.Alloc3 | riscv-os/kernel/driver/virtio_disk.c:201-213 | the three lowest free descriptors, or none, exactly when fewer than three are free |
| VirtioInv.Few | riscv-os/kernel/driver/virtio_disk.c:215-292 | three live requests would need nine of eight descriptors |
| VirtioSteps.StepKeeps | riscv-os/kernel/driver/virtio_disk.c:215-327 | every driver and device step keeps the protocol invariant |
| VirtioRuns.EachDescriptorOnce | riscv-os/kernel/driver/virtio_disk.c:156-213 | in every reachable state a descriptor is free exactly when no live request has it, and no two requests share one |
| VirtioRuns.AtMostTwo | riscv-os/kernel/driver/virtio_disk.c:215-292 | at most NUM/3 requests are live |
| VirtioRuns.NoEarlyOverwrite | riscv-os/kernel/driver/virtio_disk.c:265-275 | for any number of requests past wrap-around, the next store to either ring hits no entry still unread |
| VirtioRuns.DeviceFindsRequest | riscv-os/kernel/driver/virtio_disk.c:233-262 | the device always finds the exact chain of the request: the header with its type and sector, the buffer in the right direction, the status byte |
| VirtioRuns.IntrPanicsIff | riscv-os/kernel/driver/virtio_disk.c:294-327 | every used entry names a live request whose one transfer is done or reported as failed; the handler panics if and only if it was reported as failed |
| VirtioRuns.FailsByDevice | riscv-os/kernel/driver/virtio_disk.c:312-315 | only a non-zero status from the device makes a request a failed one |
| VirtioRuns.FinishNeverPanics | riscv-os/kernel/driver/virtio_disk.c:281-291 | a thread whose buffer is no longer busy can free its own chain |
| VirtioRuns.ReturnsAfterOwnTransfer | riscv-os/kernel/driver/virtio_disk.c:215-292 | when virtio_disk_rw returns, its chain was transferred exactly once since it was made, and buffer and block agree on what was written or read |
| VirtioCalls.RequestGoesOn | riscv-os/kernel/driver/virtio_disk.c:215-327 | in every reachable state the next step of every request can be taken: published, fetched, moved, posted, handled when the lock is free and nothing failed, and freed |
| VirtioCalls.OneCall | riscv-os/kernel/driver/virtio_disk.c:215-327 | any run in which no request is live can go on with a whole call of virtio_disk_rw, after which buffer and block agree on what was written or read |
| VirtioCalls.FreeIsCleared | riscv-os/kernel/driver/virtio_disk.c:169-197 | in every run all free descriptors are cleared |
| FsBlocks.GetPut | riscv-os/include/fs.h:28-30 | an address stored in an indirect block is read back, and its neighbours are untouched |
| FsMap.AllocKeeps | riscv-os/kernel/disk/fs.c:77-99 | marking and clearing a free block touches no file and no ownership |
| FsMap.LinkDirect | riscv-os/kernel/disk/fs.c:112-120 | linking a fresh direct block keeps ownership injective and marked, and changes no file |
| FsMap.LinkIndirect | riscv-os/kernel/disk/fs.c:124-133 | the same for a fresh indirect block |
| FsMap.LinkEntry | riscv-os/kernel/disk/fs.c:135-149 | the same for an entry of an indirect block |
| FsMap.WriteData | riscv-os/kernel/disk/fs.c:369-379 | writing a data block changes that block of that file and nothing else |
| FsDisk.Fs.constructor | riscv-os/kernel/disk/fs.c:470-476 | a disk whose bitmap marks its metadata and every block that a file names, each once, is a start state |
| FsDisk.Fs.Balloc | riscv-os/kernel/disk/fs.c:77-99 | the first free block, marked and cleared; 0 exactly when all are in use; bitmap block and block are logged |
| FsDisk.Fs.Bfree | riscv-os/kernel/disk/fs.c:22-36 | panics exactly for a free block |
| FsDisk.Fs.Bmap | riscv-os/kernel/disk/fs.c:107-155 | the address of a file block, allocated if need be; ownership stays injective and marked; no file changes; every block and bitmap block it changes is logged |
| FsDisk.Fs.Itrunc | riscv-os/kernel/disk/fs.c:253-287 | exactly the blocks of the inode become free, direct, indirect and the indirect block itself, without a panic |
| FsFile.Readi | riscv-os/kernel/disk/fs.c:324-351 | the file's bytes from the offset on, n of them or up to its end; fewer only on a full disk, nothing past the end or when offset and length overflow, or -1 exactly when the destination has no room for them, after what fits; no file changes |
| FsFile.ReadIsSlice | riscv-os/kernel/disk/fs.c:324-351 | what is read is that slice of the file's contents, and reading as many bytes as its size gives all of them |
| FsFile.Writei | riscv-os/kernel/disk/fs.c:354-391 | refuses exactly a hole or a file too long; else an overlay of the written bytes on the old contents and no other file changes; which bytes stay when the source cannot be read on; every changed block is logged but the one these stand in |
| FsFile.ReadWhatWasWritten | riscv-os/kernel/disk/fs.c:324-391 | what was written is read back |
| FsFile.ChunkLogs | riscv-os/kernel/disk/file.c:128-147 | a chunk logs at most 14 data blocks, the indirect block, the inode's block and bitmap blocks |
| FsFile.WriteChunk | riscv-os/kernel/disk/file.c:128-147 | one transaction of filewrite logs every block it changes, but for one into which a failing copy has put bytes, and at most 17 different ones on a disk with one bitmap block, below the limit of 30 |
| FsFile.Filewrite | riscv-os/kernel/disk/file.c:110-153 | when it returns n the file is as after one write of all n bytes; when it returns -1, as after a write of the bytes by which the offset moved and of those copied before the source could not be read on |
| DirNames.Strncmp | riscv-os/kernel/lib/string.c:61-69 | zero exactly when the strings agree in their first n bytes |
| DirNames.SafeStrcpy | riscv-os/kernel/lib/string.c:81-93 | the string cut to n-1 bytes |
| DirNames.Skipelem | riscv-os/kernel/disk/fs.c:38-61 | the first element of a path cut to 14 bytes, and a rest whose elements are the remaining ones |
| DirNames.ElementsOf | riscv-os/kernel/disk/fs.c:38-61 | leading slashes do not count, and a name up to a slash or the end is one element |
| Dir.RoundTrip | riscv-os/include/fs.h:55-62 | an encoded directory entry is decoded to itself |
| Dir.EncodeDecode | riscv-os/include/fs.h:55-62 | every 16 bytes are the encoding of the entry they are decoded to |
| Dir.Dirlookup | riscv-os/kernel/disk/fs.c:398-421 | the first entry in use under the name, or none exactly when there is none |
| Dir.Dirlink | riscv-os/kernel/disk/fs.c:566-595 | puts the name, cut to 13 bytes, into the first free entry; or changes nothing because the name is there, or only for want of room: a full disk, or no free entry in a directory of maximal size |
| Dir.LinkBinds | riscv-os/kernel/disk/fs.c:566-595 | a successful dirlink adds exactly one binding to the directory's map |
| Dir.FoundIffShort | riscv-os/kernel/disk/fs.c:586-591 | after it the name is found if and only if it has fewer than 14 bytes |
| Dir.UniqueIff | riscv-os/kernel/disk/fs.c:566-595 | no name becomes bound twice if and only if the stored name was not bound |
| Dir.UnlinkUnbinds | riscv-os/kernel/disk/sysfile.c:332-334 | clearing the entry found removes that name and no other binding |
| FileTree.Namex | riscv-os/kernel/disk/fs.c:478-518 | a path that begins with a slash is followed from the root, whatever cwd is, any other from cwd; the inode that following the elements one by one leads to, or the directory of the last one and its name |
| FileTree.ParentStep | riscv-os/kernel/disk/fs.c:487-510 | resolving a path's parent follows one element at a time |
| FileLinks.Tree.Ialloc | riscv-os/kernel/disk/fs.c:541-564 | the first free inode, cleared, or none exactly when none is free |
| FileLinks.LinksAdded | riscv-os/kernel/disk/sysfile.c:65-67 | linking a file adds one entry to its set of links and changes no other set |
| FileLinks.LinksCleared | riscv-os/kernel/disk/sysfile.c:332-342 | unlinking takes one entry out of the file's set of links and changes no other set |
| FileLinks.Tree.Create | riscv-os/kernel/disk/sysfile.c:20-85 | opens an existing file or device, or makes a file with one link; refuses only what exists and may not be opened, or without a free inode, without a free block, or in a directory of maximal size; a failed link gives the inode back; link counts equal numbers of entries throughout |
| FileLinks.Tree.Unlink | riscv-os/kernel/disk/sysfile.c:298-353 | one entry and one link less; the count was at least one; the last link of a file nobody holds frees the file and its blocks; refuses exactly dot, dot-dot and a name that is not found, and stops exactly at a directory |
| Mkfs.Image.Ialloc | riscv-os/mkfs/mkfs.c:222-234 | an empty file under a new number, with its type and one link; it does not fit exactly when the inode blocks are full, which mkfs does not test |
| Mkfs.Image.Balloc | riscv-os/mkfs/mkfs.c:236-250 | the bitmap marks exactly the blocks handed out, and so every block a file names |
| Mkfs.Image.BlockFor | riscv-os/mkfs/mkfs.c:268-285 | the block for a position in a file, taken from the unused ones if need be; no file changes; fails only when the image is full |
| Mkfs.Iappend | riscv-os/mkfs/mkfs.c:254-296 | the file's contents are the old contents followed by the new bytes; no other file changes; no block is shared |
| Mkfs.Image.constructor | riscv-os/mkfs/mkfs.c:93-111 | the zeroed image: nothing handed out beyond the metadata |
| MkfsMain.AddFile | riscv-os/mkfs/mkfs.c:130-163 | one turn of the loop: an inode, an entry for it in the root directory, and its contents; earlier files and entries stay |
| MkfsMain.MakeImage | riscv-os/mkfs/mkfs.c:69-175 | the finished image is a valid tree for the kernel: bitmap, directory with its rounded size, link counts; every name leads to an inode that holds its file; and it is made whenever the files are small enough |
| MkfsMain.OneLink | riscv-os/mkfs/mkfs.c:152-157 | each file has exactly the one link that its inode counts |
| MkfsMain.NameBound | riscv-os/mkfs/mkfs.c:154-157 | each name is bound to the inode of its file |
| MkfsPaths.NameFound | riscv-os/mkfs/mkfs.c:130-163 | in the finished image a name leads to the first file that has it |
| MkfsPaths.PathLeads | riscv-os/kernel/disk/fs.c:478-518 | there the path of a slash and a name resolves to the inode of that file |
| MkfsPaths.OpenByName | riscv-os/kernel/disk/fs.c:520-531 | namei of such a path, from any cwd, returns the inode that holds the file's bytes |

## Left out

- Boot, trap entry, assembly, console, uart, plic, device initialisation and printf: register plumbing without state worth an invariant.
- Syscall dispatch and argument fetching: thin layers over the operations modelled here.
- Weak memory: loads and stores are sequentially consistent and lock operations atomic, so the fences are not modelled.
- Fairness: that a step that stays possible is taken at last is not assumed, so nothing is said of what must happen; that calls can always go on or be brought to their end is proved for the log, the processes, the page allocator and the disk driver.
- The "no buffers" panic of bget: not excluded, because hits leak references and the cache is as large as the log.
- BuddyBoot.BuddyHeap: the split bitmaps are kept as the set of their one bits, since nothing reads past them.
- BuddyBoot.BuddyHeap.Init: sizes are unbounded integers, not the C ints of block indices.
- VmBuild.Copy: the source page is copied as 512 words in one assignment.
- PageAlloc.Kmem: one call is one step; overlapping calls are the subject of KmemRuns, which has pages without contents.
- VmSystem.ProcTable: one call is one step, so two processors that allocate at once are not interleaved.
- VmExec.BuildImage: program headers, file pages and argument strings are parameters, and what copyout puts on the stack is one; reading the ELF header is not modelled, nor the wrap-around of loadseg's 32-bit counter for segments of 4 GB. The rest of a segment's last file page is taken as zeros, which differs from the code only where segments overlap.
- LogCacheWork and LogCacheStart: stated for the code with one increment, since hits of the code as it stands leave buffers referenced for good.
- copyout: it keeps a zero address after vmfault, so a page faulted in there is not written; not modelled.
- VmUser.Copyinstr: bytes already stored in the destination before a failure are not described.
- LogCache: an operation is assumed to call log_write after its changes to a block and before it lets go of it; FsFile proves this of writei but for a failing copy, and other callers of log_write are not tied to it.
- Log on disk: LogCache takes the header with its count stored, as the documentation has it; the code as it stands is covered by LogShown.
- On-disk inodes: inodes are kept as records; their 64-byte encoding, iupdate's packing and the valid flag of iget and ilock are not modelled, nor inode and file reference counts.
- FileTree.Namex: reference counts and locks of the inodes on the way are not modelled.
- FileLinks.Tree.Create: does not model the branch for directories, because no system call passes T_DIR to create: the root directory of mkfs stays the only one.
- FileLinks.Tree.Unlink: stops at a directory without following isdirempty, because the only directory is the root, named by dot and dot-dot alone, which unlink refuses.
- FsDisk.Fs.Bmap: takes bp->data where the shown code indexes the buffer structure.
- FsMap.LinkEntry: the same.
- Mkfs.Image.Ialloc: mkfs writes behind the inode blocks when there are too many files; the model stops there.
- LogRuns: block contents given to log_write are parameters; which blocks an operation logs is bounded as begin_op promises, and proved for filewrite only.
- ProcModel: process memory, files, kill and pid wrap-around are not part of the step relation; the number of pids is unbounded.
- Virtio: a caller is assumed to hold its buffer and the only buffer of the block, as the buffer cache provides.
- kVmMake and the kernel page table; uVmDealloc.
