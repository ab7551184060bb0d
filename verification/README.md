# xv6 in Dafny

A model of the parts of the xv6 kernel and user land that carry the hardest promises, with proofs.
`dafny verify dfyconfig.toml` checks the whole project.

- **Logged storage.** `LogFormat`, `LogMachine`, `LogRuns`, `LogLimits`: the redo log and the buffer
  cache as one state machine in which every disk write is a step and power may fail between any two
  steps. It refines an atomic transactional block store over whole runs. `Log` and `BufferCache` are
  the code of kernel/log.c and kernel/bio.c with its loops.
- **Files.** `Bitmap`, `Files`, `Fs`, `FileTrunc`, `FileData`, `FileWrite`, `FileHoles`: kernel/fs.c
  and kernel/file.c from the bitmap up to files as byte strings, with exact ownership of blocks and
  the bound on what one operation logs. `FsCrash` joins both halves: what a crash leaves of files.
- **Directories.** `Links`, `LinkCode`: names and link counts through link, unlink and create.
- **Memory.** `PageTable`, `PageAlloc`, `Vm`, `VmFree`: Sv39 page tables in physical pages against a
  flat map, and the page allocator. `ProcMem`, `ProcImage`, `Exec`, `ExecArgs`: what process creation,
  growth, fork and exec do to pages, on success and on every failure exit, and what a new program
  finds in its memory.
- **Processes.** `SleepWakeup`: sleep, wakeup, the scheduler, fork, exit, wait and their locks, one
  step at a time, with slots used again. `SleepLock`: sleep locks over those steps. `ProcTable`:
  parents and children. `Pipe`, `PipeRuns`, `Virtio`, `VirtioCode`: clients of sleep and wakeup.
- **User land.** `Umalloc`, `Malloc` (user/umalloc.c, section 8.7 of The C Programming Language, 2nd
  edition), `ShellParser`, `ShellRoundTrip`, `Shell` (user/sh.c), `Grep` (user/grep.c).

`Base` and `Blocks` hold what several parts share.

Code that updates state in place is a class whose state is one record, so that what each operation
does can be stated and proved as lemmas about values. Panics are preconditions where a caller must
avoid them, and are shown to be out of reach where the code promises that; other errors are results.

Where the code does less than one might assume, the model follows the code:

- `mkfs` makes the log area LOGSIZE blocks long, so log_write's second limit is 29 blocks. Three full
  operations reach the panic. `TooBigExactly` gives the exact condition for new blocks.
- log_write tests its limits before it looks for the block, so even in a longer log a block that is
  logged again can meet the panic (`FullLogPanics`). `PanicExactly` says when.
- One reader that holds a buffer can take the last one from a commit of 29 blocks
  (`ReaderStarvesCommit`). `CommitHasBuffer` says when there is one; the code of the commit is proved
  with other processes at work on the cache, and panics only then.
- A copy that fails inside writei leaves bytes in a cached block and releases it without logging it.
  `Writei` says which bytes (`torn`) and what has been logged (`clean`). They are committed only if the
  block was already in the transaction; otherwise they are seen while the buffer stays cached and are
  lost with it (`AbandonRefines`, `WriteCarried`, `WriteIsAtomic`).
- mkfs rounds the size of the root directory up to whole blocks, which can leave a hole in it. readi
  fills holes, and does so outside any operation: `Readi` says exactly when that panics, `ReadPanics`
  shows a disk on which it does. No write makes a hole.
- One write into holes can log eleven blocks (`WriteLogsEleven`); never more than ten if the file has no
  holes, the offset is aligned or the disk has at most four bitmap blocks (`Writei`).
- exec stores a null pointer after MAXARG arguments, one past the end of its array (`PushArgs` says
  exactly when). sys_exec refuses so many, so no system call gets there (`SysExec`).
- A writer that is killed midway leaves a pipe without waking readers. `StepBlocked` says exactly when
  that matters.
- Neither link nor create looks whether the directory still has a name or a count has reached 32767.
  `NamePlainExactly` and `NameDirExactly` give the exact condition, `NamelessBreaks` a way to miss it.
- morecore passes a byte count through an int. `RequestFits` gives the exact limit on requests.
- A byte that piperead cannot copy out is consumed and lost.
- sbrk with a decrement larger than the process does nothing and reports success (`Growproc`).

## Model

| member | source | states |
|---|---|---|
| LogFormat.HeaderRoundTrip | kernel/log.c:86-114 | the header that read_head reads back is the in-memory header that write_head wrote |
| LogFormat.SlotWriteKeepsDurable | kernel/log.c:178-191 | filling log slots under an empty header changes nothing that a recovery would produce |
| LogFormat.HeadWriteCommits | kernel/log.c:99-114 | one header write switches every listed block to its logged copy at once |
| LogFormat.InstallKeepsDurable | kernel/log.c:68-83 | copying a logged block home changes nothing durable, in commit and in recovery |
| LogFormat.ClearKeepsDurable | kernel/log.c:194-203 | erasing the header once all logged blocks are home changes nothing durable |
| LogMachine.StepRefines | kernel/log.c:126-235 | every step of cache, log, commit, recovery and crash keeps the whole invariant and moves an atomic transactional block store: only log_write, and a change left in the buffer of a block already logged, changes what readers see; only the first write_head changes what survives |
| LogMachine.AbandonRefines | kernel/bio.c:116-137 | a changed buffer released without log_write: if its block is already in the transaction the change goes with it, otherwise it stays in the cache alone and neither view nor durable content moves |
| LogMachine.UnspentBounds | kernel/log.c:126-142 | the allowance still owed to outstanding operations lies between zero and MAXOPBLOCKS each |
| LogRuns.RunRefinesStore | kernel/log.c:68-235 | whole runs, any interleaving, power lost anywhere: the disk, cache and log always stand for the transactional store driven by the visible events alone |
| LogRuns.CrashAtomicity | kernel/log.c:68-123 | lose power in any reachable state, then cut any number of recoveries short; the first completed recovery leaves the home blocks exactly as before the transaction, or with all of it |
| LogRuns.BeforeOrAfter | kernel/log.c:194-203 | inside one transaction the durable content is the old one until write_head and everything logged from then on |
| LogRuns.DurableIsCommitted | kernel/log.c:146-203 | over any number of transactions what is durable is what readers saw at the last commit |
| LogRuns.NeverEnded | kernel/log.c:146-175 | while one operation is not ended no commit begins and nothing becomes durable, whatever all others do: the fate of a log whose user returns without end_op |
| LogRuns.ReadersSeeView | kernel/bio.c:92-103 | a held unchanged buffer shows the last logged content of its block, or else the disk content; logged blocks stay pinned until installed |
| LogRuns.RecycledBuffersAreClean | kernel/bio.c:73-88 | a buffer that bget may recycle is unheld and unpinned, and equal to its disk block unless it holds a change that was never logged |
| LogRuns.CommitIsAlone | kernel/log.c:147-175 | while a commit runs no operation is outstanding, log writes stay in the log area, and the header lists no block twice |
| LogRuns.ReservationHolds | kernel/log.c:126-142 | what is logged plus all that outstanding operations may still log fits LOGSIZE |
| LogLimits.ShortLogOverflows | kernel/log.c:220-221 | with a log area of at most LOGSIZE blocks (as mkfs makes it) three operations inside their allowances reach the panic of log_write |
| LogLimits.TooBigExactly | kernel/log.c:214-235 | log_write never panics on a block new to an operation with allowance left, in any reachable state, if and only if the log area has more than LOGSIZE blocks |
| LogLimits.FullLogPanics | kernel/log.c:214-235 | whatever the length of the log, logging a block again inside the allowance can reach the panic, because the limit is tested before absorption |
| LogLimits.PanicExactly | kernel/log.c:214-235 | an allowed log_write, of a new block or again of a logged one, panics if and only if the log is full; in a log longer than LOGSIZE only a block logged before can be hit, once every outstanding operation has spent its allowance |
| LogLimits.CommitHasBuffer | kernel/bio.c:58-89 | in every reachable state bget finds a buffer if and only if the block is cached or fewer than NBUF buffers are in use: those of the transaction plus those other processes hold or wait for |
| LogLimits.ReaderStarvesCommit | kernel/log.c:178-191 | the log that mkfs makes and one reader outside any operation reach a state in which the commit finds no buffer and panics |
| LogCode.FillHeader | kernel/log.c:103-114 | the loop of write_head produces the encoded header, which decodes to the list |
| LogCode.ParseHeader | kernel/log.c:86-97 | the loop of read_head produces the list a header stands for |
| LogCode.Log.constructor | kernel/log.c:54-65 | power-on keeps nothing but the disk, in a state that satisfies the invariant of the machine; the plan of the other processes is arbitrary |
| LogCode.Log.Others | kernel/bio.c:58-137 | between any two steps of the code below other processes look up, lock and release buffers; that moves nothing in the store and touches no buffer of the caller |
| LogCode.Log.Bread | kernel/bio.c:92-103 | with other processes at work: the locked buffer holds the current content of the block; a panic only with the block uncached and all buffers in use; the store does not move |
| LogCode.Log.Brelse | kernel/bio.c:116-137 | with other processes at work: releasing a clean buffer drops one reference and moves nothing in the store |
| LogCode.Log.WriteLog | kernel/log.c:178-191 | every block of the transaction is in its log slot and nothing durable has changed; it stops short only on the panic of bget, with all buffers in use |
| LogCode.Log.WriteHead | kernel/log.c:99-114 | the commit point: the whole view becomes durable, or bget panics and nothing has moved |
| LogCode.Log.InstallTrans | kernel/log.c:68-83 | all logged blocks are home; neither view nor durable content moves, not even on a panic of bget |
| LogCode.Log.Commit | kernel/log.c:193-203 | afterwards view, durable content and home blocks agree and equal the view before, and the log is empty; a panic needs a load of NBUF buffers and leaves all of the transaction durable or none of it |
| LogCode.Log.RecoverFromLog | kernel/log.c:116-123 | for every disk: home blocks get the durable content of the disk found at boot and the log is empty; a panic of bget leaves the durable content as it was |
| LogCode.Log.BeginOp | kernel/log.c:126-142 | an operation enters exactly when no commit runs and the reservation fits, and sleeps otherwise |
| LogCode.Log.LogWrite | kernel/log.c:214-235 | panics exactly on the two limits; otherwise absorbs, or appends and pins, and the store sees one write |
| LogCode.Log.EndOp | kernel/log.c:146-175 | the last operation out commits everything logged, earlier ones leave the durable content alone; a panic of bget comes only in the commit, needs a load of NBUF buffers, and leaves all of the transaction durable or none of it |
| FsCrash.FilesSurviveCrash | kernel/log.c:68-203 | from a quiet point on, any operations in any number of transactions, power lost anywhere, recoveries cut short: a restart finds exactly the files that the log writes committed so far make of those at the start |
| FsCrash.AllOrNothing | kernel/log.c:68-203 | if all that is committed took the files from one state to another, a restart finds every file of the second once the header is written, while the log is installed, when it is erased and ever after, and every file of the first before |
| FsCrash.WriteCarried | kernel/fs.c:525-531 | the log writes of a write lead to the state without torn bytes; if their block was already in the transaction the log takes in one more content of it and leads to the state with them |
| FsCrash.WriteIsAtomic | kernel/fs.c:511-544 | after a crash at any point a written file has its old bytes, or the bytes that writei reports spliced in, followed by torn bytes only if the log took them in; all other files are unchanged |
| FsCrash.TruncIsAtomic | kernel/fs.c:430-457 | after a crash at any point a truncated file has its old bytes or is empty, and all other files are unchanged |
| FsCrash.ReplayIsLastWrite | kernel/log.c:214-235 | replaying the writes that went into the log leaves the last content of each block |
| FsCrash.SameFiles | kernel/fs.c:295-321 | files depend only on blocks on disk once inodes are written back |
| FsCrash.ViewIsLastWrite | kernel/log.c:214-235 | what readers see of a block is the last log_write of it in the run |
| BufferCache.ListIsByLastRelease | kernel/bio.c:116-137 | after any releases the list orders buffers by last release, never-released ones last in their first order |
| BufferCache.Bcache.constructor | kernel/bio.c:36-53 | the ring links all buffers, last linked first, and the table is empty |
| BufferCache.Bcache.FindCached | kernel/bio.c:66-74 | finds the buffer of a block if there is one |
| BufferCache.Bcache.FindUnused | kernel/bio.c:76-87 | finds the unreferenced buffer that every other unreferenced one precedes in the list |
| BufferCache.Bcache.Bget | kernel/bio.c:58-89 | the cached buffer, else the least recently used unreferenced one, else a panic; no two buffers share a block |
| BufferCache.Bcache.Brelse | kernel/bio.c:116-137 | the last reference moves the buffer to the front of the ring; other buffers keep order and counts |
| BufferCache.Bcache.Unlink | kernel/bio.c:127-130 | taking a buffer out of the doubly linked ring leaves the ring of the others |
| BufferCache.Bcache.LinkFirst | kernel/bio.c:130-133 | inserting at the head gives the ring with the buffer first |
| BufferCache.UnlinkRing | kernel/bio.c:127-130 | two pointer stores turn a ring into the ring without one element |
| BufferCache.LinkRing | kernel/bio.c:130-133 | four pointer stores turn a ring into the ring with one more first element |
| Bitmap.SetBitBits | kernel/fs.c:77-79 | or-ing in bit i sets bit i of a byte and no other |
| Bitmap.ClearBitBits | kernel/fs.c:100-103 | masking out bit i clears bit i of a byte and no other |
| Bitmap.MarkOne | kernel/fs.c:66-106 | marking or clearing one bit of one bitmap block changes the state of exactly one disk block, across bitmap blocks |
| FsCode.Fs.constructor | mkfs/mkfs.c:237-252 | marking the blocks before the data area, one bit after the other, gives a file system that satisfies the invariant and has only empty files |
| Files.AtMostOneReference | kernel/fs.c:376-457 | two inode slots or indirect entries never name the same block, and a named block is a data block in use |
| Files.OtherFile | kernel/fs.c:376-544 | an operation that keeps other inodes and their blocks keeps every other file byte for byte |
| Files.LoggedChain | kernel/fs.c:376-544 | if two operations in a row change no block without logging it, the log writes of both lead from the first state to the last |
| Files.ReplayTwice | kernel/log.c:214-235 | log writes replay one after the other |
| Files.FillKeepsOk | kernel/fs.c:386-425 | putting an unowned block into an empty slot keeps exact ownership and an exact bitmap |
| FsCode.Fs.ScanBlock | kernel/fs.c:74-85 | the inner loop finds the first clear bit of one bitmap block within the disk |
| FsCode.Fs.Balloc | kernel/fs.c:66-89 | the first free block of the disk, marked and zeroed and both changes logged; 0 exactly when every block is in use |
| FsCode.Fs.Bfree | kernel/fs.c:92-106 | exactly one block becomes free; the free-block panic is out of reach |
| FsCode.Fs.Bmap | kernel/fs.c:386-425 | returns the block of the slot, filling it with a zeroed unowned block if empty; keeps ownership, other slots, other files and all data; says which blocks were logged |
| FsCode.Fs.MapDirect | kernel/fs.c:392-399 | a missing direct block is filled or the disk is full |
| FsCode.Fs.LoadIndirect | kernel/fs.c:403-410 | a missing indirect block is filled with a zeroed one or the disk is full |
| FsCode.Fs.MapEntry | kernel/fs.c:411-421 | a missing indirect entry is filled, its block logged, or the disk is full |
| FsCode.AllocedFresh | kernel/fs.c:66-89 | a block from balloc is owned by nobody and marking it moves no slot |
| FileTrunc.InodeRoundTrip | kernel/fs.c:228-244 | what ilock reads from an inode's block is what iupdate wrote, and other words of the block stay |
| FileTrunc.Iupdate | kernel/fs.c:228-244 | the inode on disk becomes the one in memory; only its block changes and is logged; the state after it exactly |
| FileTrunc.Itrunc | kernel/fs.c:430-457 | every block of the file and no other becomes free, each freed once; the file is empty; other files stay; only bitmap blocks and the inode's block are logged |
| FileTrunc.TruncDirect | kernel/fs.c:436-441 | one direct block is freed, with its bit still set when bfree looks |
| FileTrunc.TruncIndirect | kernel/fs.c:443-453 | all indirect entries and then the indirect block are freed |
| FileTrunc.TruncDone | kernel/fs.c:430-457 | with all its blocks free the inode owns nothing and the rest of the file system is exact |
| FileData.Readi | kernel/fs.c:477-501 | a file without holes: the clamped slice of its bytes, an empty read for a bad range, -1 if the copy out fails, nothing changed; any file: the bytes read are the file's, no file changes, the read falls short only on a full disk; log_write panics if and only if no operation is outstanding, a block is free and a hole is reached before the copy out fails |
| FileData.ReadLoop | kernel/fs.c:487-499 | the loop over a range within the file, with the same exact condition |
| FileData.ReadRound | kernel/fs.c:487-498 | one block's piece of the read is the file's bytes at that position |
| FileData.Writei | kernel/fs.c:511-544 | -1 exactly for a bad range; otherwise the bytes up to the returned count are in the file, no hole appears, other files and other slots stay, the inode is written back; a short count stops at a missing block of a full disk with nothing torn, or at the piece whose copy failed with exactly the bytes it moved torn; what is logged is a complete write of the count, and the torn bytes are in one data block that was not; three blocks of bytes log at most ten blocks, eleven only with holes, an unaligned offset and more than four bitmap blocks |
| FileData.WriteRound | kernel/fs.c:521-532 | one round replaces one block's piece and logs it; a failed copy leaves its part in the buffer, unlogged, and all the rest as logged |
| FileData.WriteIsSplice | kernel/fs.c:511-544 | with successful copies the new file is the old one with the bytes spliced in |
| FileData.WriteIsTorn | kernel/fs.c:511-544 | after a failed copy the file is the splice of the reported bytes, overwritten but not lengthened by the torn ones |
| FileData.MapKeepsBytes | kernel/fs.c:386-425 | bmap changes no byte of the file: an added block is zero like the hole it fills |
| FileData.PatchData | kernel/fs.c:525-531 | replacing bytes in a data block changes those bytes of that file only |
| FileData.BudgetBound | kernel/file.c:149-155 | data blocks, bitmap blocks, the indirect block and the inode make at most ten, eleven only if four rounds all take new blocks and there are more than four bitmap blocks |
| FileData.BudgetNext | kernel/fs.c:386-425 | each round adds one data block, at most one bitmap block for it and one for a new indirect block |
| FileData.FirstBlock | kernel/fs.c:517-521 | an unaligned first byte lies in a block the file already has |
| FileWrite.Filewrite | kernel/file.c:149-174 | for every offset and length: a long write is the splice of the bytes it reports through the offset, an offset beyond the end is refused with nothing changed; every operation it opens logs at most MAXOPBLOCKS blocks if the file has no holes or the disk at most four bitmap blocks; n is returned exactly when all bytes are written, and a shorter write has a listed cause |
| FileWrite.OneOp | kernel/file.c:163-168 | begin_op, writei and end_op of one chunk log at most ten distinct blocks, eleven only for a file with holes on a disk with more than four bitmap blocks |
| FileWrite.RefusedWrite | kernel/file.c:149-174 | beyond the end of the file only an empty write succeeds, and no block or inode changes |
| FileWrite.SpliceTwice | kernel/file.c:157-174 | writing two strings one after the other is writing their concatenation |
| FileWrite.WriteThenRead | kernel/fs.c:477-544 | reading back what was written returns it |
| FileHoles.PackedOk | kernel/fs.c:376-425 | a file system in which every data block but a chosen few is in use satisfies the invariant |
| FileHoles.RootHole | mkfs/mkfs.c:165-170 | a root directory that fills its block exactly and was given the size of two by mkfs meets the condition under which readi panics |
| FileHoles.ReadPanics | kernel/fs.c:477-501 | readi of that directory, as a call of the code outside any operation, panics |
| FileHoles.Eleven | kernel/file.c:149-168 | any outcome of a write into four holes, on a disk with one free block under each of five bitmap blocks, has logged eleven blocks |
| FileHoles.WriteLogsEleven | kernel/file.c:149-168 | that write, as a call of the code within one operation, logs eleven blocks where MAXOPBLOCKS is ten |
| PageTable.HwAgrees | kernel/vm.c:73-84 | the three-level walk of the memory is the flat map from virtual page to entry |
| PageTable.DistinctSlots | kernel/vm.c:85-103 | in a page-table tree two virtual pages whose walks end at the same slot of the same physical page are the same page |
| PageTable.SetLeaf | kernel/vm.c:163-164 | one leaf store changes the translation of one virtual page |
| PageTable.AddTable | kernel/vm.c:94-101 | hanging a zeroed page below an empty entry changes no translation |
| PageTable.MakePte | kernel/riscv.h:366-371 | an entry gives back its page and its flags |
| PageAlloc.AllocOk | kernel/kalloc.c:71-87 | kalloc returns the head of the free list; the list and its counter shrink by one |
| PageAlloc.FreeKeepsOk | kernel/kalloc.c:48-66 | kfree puts the page first; the list through the pages and its counter grow by one |
| PageAlloc.Freerange | kernel/kalloc.c:35-42 | exactly the whole pages of the range become free |
| VmCode.Vm.constructor | kernel/kalloc.c:27-33 | after kinit exactly the managed pages are free, in a state that satisfies the invariant |
| VmCode.Vm.Kalloc | kernel/kalloc.c:71-87 | fails exactly when no page is free |
| VmCode.Vm.Kfree | kernel/kalloc.c:48-66 | one page becomes free and no other page changes |
| VmCode.Vm.Walk | kernel/vm.c:85-103 | returns the leaf slot of the address; allocation changes no translation; at most two tables are taken, from the free pages; fails only without memory |
| VmCode.Vm.Mappages | kernel/vm.c:143-172 | the map changes on exactly the run, up to the page where a table could not be had; all pages are accounted for; fewer than two free pages per page is the only cause of failure |
| VmCode.Vm.Uvmunmap | kernel/vm.c:177-199 | the map loses exactly the run and, if asked, exactly its pages become free |
| VmCode.Vm.Uvmalloc | kernel/vm.c:232-256 | growth adds zeroed pages with the permissions; it fails only with fewer than three free pages per new page, and then the map, the owned pages and their contents are as before, every page free or a table |
| VmCode.Vm.Uvmdealloc | kernel/vm.c:262-274 | shrinking frees exactly the whole pages above the new size |
| VmCode.Vm.Uvmcopy | kernel/vm.c:312-340 | the copy has the same permissions and contents page by page; the source is untouched; failure restores the new map and comes only from too few free pages |
| VmCode.RunFits | kernel/vm.c:232-256 | the pages of a growing run and the pages still free together never exceed the pages that were free |
| VmCode.AllocUndo | kernel/vm.c:243-252 | unmapping a half-built run gives back exactly its pages, whatever tables were added |
| VmFree.Freewalk | kernel/vm.c:278-294 | exactly the pages of the subtree become free, and a leaf is never met |
| VmFree.NothingMapped | kernel/vm.c:276-294 | a page table that maps nothing is ready to be freed whole |
| ProcMem.Uvmcreate | kernel/vm.c:203-212 | an empty page table, or no memory |
| ProcMem.Uvmfree | kernel/vm.c:298-304 | every page of the address space, tables included, becomes free |
| ProcMem.ProcPagetable | kernel/proc.c:176-206 | trampoline and trapframe mapped and nothing else; on failure, which needs fewer than five free pages, exactly the pages taken are free again |
| ProcMem.ProcFreePagetable | kernel/proc.c:210-216 | the whole address space becomes free; fixed mappings are removed without freeing their pages |
| ProcImage.AllocProc | kernel/proc.c:109-150 | a trapframe page and a page table, or, with fewer than six free pages, neither and no page lost |
| ProcImage.FreeProc | kernel/proc.c:155-172 | exactly the pages of the process become free |
| ProcImage.Fork | kernel/proc.c:279-296 | the child's memory copies the parent's, all of it from free pages; a failed fork restores the set and the count of free pages and had fewer than 6 + 3n of them for n pages; the parent is untouched |
| ProcImage.Growproc | kernel/proc.c:259-275 | common pages keep place and contents, new ones are zero, freed ones are free; a shrink below zero does nothing; only growth fails, for lack of free pages, and then no user page has changed |
| ProcImage.UserAlloc | kernel/vm.c:232-256 | for any requested size the image grows to it or stays, with pages moving only between the image and the free list |
| ProcImage.UserFits | kernel/memlayout.h:41-43 | user pages and free pages together fit the managed memory, so growth never reaches the trapframe |
| ExecCode.Flags2Perm | kernel/exec.c:12-20 | execute and write permission come from bits 0 and 1 of the ELF flags |
| ExecCode.NoWrap | kernel/exec.c:60-61 | the wrap-around test refuses exactly the segments whose end exceeds 64 bits |
| ExecCode.Walkaddr | kernel/vm.c:105-126 | the physical page exactly for mapped user addresses below MAXVA |
| ExecCode.Loadseg | kernel/exec.c:146-166 | fails exactly on a short read; otherwise the image is the old one with the segment's bytes laid over it, to the byte; the panic on an unmapped address is out of reach |
| ExecCode.LoadPage | kernel/exec.c:153-163 | one round lays one page's bytes, the last page in part, and leaves the rest of the page |
| ExecCode.NoCut | kernel/exec.c:68-69 | cutting the file size to 32 bits changes nothing, because no larger segment fits the memory below PHYSTOP |
| ExecCode.LoadSegments | kernel/exec.c:51-71 | at every exit sz is the size of what is mapped; success means no header was refused, every loaded segment lies below sz, and every byte is what the last segment over it put there, or zero, bss included; failure means a refused header, a first segment ending at 0, or too few free pages |
| ExecCode.Uvmclear | kernel/vm.c:344-353 | one page loses user access and stays owned; nothing else changes |
| ExecCode.MakeStack | kernel/exec.c:79-88 | a guard page without user access below a writable stack page, on top of the unchanged program |
| ExecArgs.PushArgs | kernel/exec.c:90-115 | succeeds if and only if there are fewer than MAXARG arguments and their rounded sizes and the array fit the page, and then a program that follows the array at sp reads exactly its arguments and a null pointer; stores past the end of ustack if and only if there are exactly MAXARG arguments that fit; is refused otherwise |
| ExecArgs.OverrunExists | kernel/exec.c:90-105 | MAXARG empty strings make exec overrun ustack |
| ExecArgs.FetchArgs | kernel/sysfile.c:479-496 | sys_exec passes on the user's arguments if and only if there are fewer than MAXARG and each can be fetched |
| ExecArgs.UnwordsWords | kernel/vm.c:358-384 | the bytes of a page read back from its words |
| ExecArgs.AddressAt | kernel/exec.c:104-115 | each stored address reads back, little-endian, from the bytes of the array |
| ExecCode.CopyTarget | kernel/vm.c:358-384 | the physical page exactly for mapped, writable user addresses below MAXVA |
| ExecCode.PushStack | kernel/exec.c:90-117 | the arguments reach the stack page under the same exact conditions; copyout cannot fail there, and no other page changes |
| ExecCode.Exec | kernel/exec.c:22-141 | either the new image replaces the old one, whose pages become free, and holds the program, the arguments on its stack and zeros elsewhere, byte by byte; or the old image is untouched and the free pages and their count are as before; the causes of failure are listed, lack of memory with a bound; ustack is overrun only by exactly MAXARG arguments |
| ExecCode.SysExec | kernel/sysfile.c:467-509 | as the system call reaches it exec never overruns: it fails with the old image, or the program gets exactly the user's arguments |
| SleepWakeup.StepInv | kernel/proc.c:110-616 | every step of sleep, wakeup, yield, kill, the scheduler, fork, exit, wait and the locks keeps the invariant; the timer may preempt whoever holds no spinlock, inside sleep and fork too |
| SleepWakeup.NoLostWakeup | kernel/proc.c:547-592 | in every interleaving, slots of the table used again or not, when wakeup(chan) under a lock ends, nobody who called sleep(chan, that lock) is still asleep |
| SleepWakeup.StepCommits | kernel/proc.c:547-574 | nobody commits to sleep under a lock that a process in wakeup holds |
| SleepWakeup.NewSleeper | kernel/proc.c:547-574 | the only step by which a process commits to sleep is the release of its lock in sleep |
| SleepWakeup.RunningIsOnOneCpu | kernel/proc.c:444-519 | in every run with fork, exit, wait and preemption: with p->lock free a process is RUNNING exactly when one CPU runs it, and never two |
| SleepWakeup.ReusedSlotIsOffCpu | kernel/proc.c:109-172 | an unused slot, a slot that fork fills and a zombie that wait reaps are on no CPU, though exit marks itself ZOMBIE before it switches away |
| SleepWakeup.SchedHoldsOneLock | kernel/proc.c:491-508 | whoever switches away holds its p->lock and no other spinlock and is not RUNNING, so the panics of sched are out of reach |
| SleepLock.Exclusion | kernel/sleeplock.c:21-54 | over the real steps of sleep, wakeup and kill: at most one process has the lock, holdingsleep is true of it and of nobody else, and whoever is asleep on the lock while its spinlock is free sleeps behind a holder |
| SleepLock.StepInv | kernel/sleeplock.c:21-54 | every step keeps it: nobody is asleep on a free lock unless the wakeup of the last holder is still under way |
| ProcTable.Reparent | kernel/proc.c:330-341 | the children of a process, and only they, go to init |
| ProcTable.ScanChildren | kernel/proc.c:403-431 | the first zombie child, or whether there are children |
| ProcTable.StepInv | kernel/proc.c:279-435 | every step of fork, exit and wait keeps parents alive, zombies waited for and fork slots separate |
| ProcTable.TableInvariant | kernel/proc.c:279-435 | in every run a parent is neither UNUSED nor ZOMBIE, a ZOMBIE has a live parent, and each exit is reaped at most once |
| ProcTable.ExitedHasNoChildren | kernel/proc.c:346-386 | nobody points to an exited process |
| PipeCode.CountersTell | kernel/pipe.c:88-121 | the counter tests mean full and empty even after 32-bit wrap-around |
| PipeCode.PipeBuffer.constructor | kernel/pipe.c:22-45 | a new pipe is empty and open at both ends, whatever its page holds |
| PipeCode.WriteLoopIs | kernel/pipe.c:84-99 | the copy loop over the wrapping ring appends the first bytes of the source, as many as the first obstacle allows, which is named |
| PipeCode.ReadLoopIs | kernel/pipe.c:118-126 | the copy loop over the wrapping ring takes the oldest bytes in order, one more than can be delivered if a copy fails |
| PipeCode.PipeBuffer.WriteSection | kernel/pipe.c:76-103 | one hold of the lock is the copy loop and appends a prefix of the source; it ends asleep on a full ring, closed, killed, or done, a bad address included, exactly as the first obstacle says |
| PipeCode.PipeBuffer.ReadSection | kernel/pipe.c:105-130 | one hold of the lock takes the oldest bytes in order; a byte whose copy out fails is lost; it sleeps or gives up exactly on an empty pipe with writers |
| PipeCode.PipeBuffer.Close | kernel/pipe.c:58-74 | one end closes; the page goes when both are closed |
| PipeRuns.PipeIsFifo | kernel/pipe.c:76-130 | in every interleaving, over the array and the wrapping counters: bytes read followed by bytes in the ring are the bytes written |
| PipeRuns.NobodySleepsInVain | kernel/pipe.c:58-130 | in runs in which no writer is killed midway, a sleeping reader faces an empty ring with writers open and a sleeping writer a full ring with readers open |
| PipeRuns.KillCanStrandReader | kernel/pipe.c:84-87 | a killed writer can leave a byte behind a sleeping reader |
| PipeRuns.StepGood | kernel/pipe.c:58-130 | every step keeps the ring exact |
| PipeRuns.StepBlocked | kernel/pipe.c:76-130 | a step keeps every sleeper justified if and only if it is not a writer killed between its first and last byte while a reader sleeps and the read end is open |
| Virtio.PostOk | kernel/virtio_disk.c:237-279 | posting keeps the split of descriptors into free ones and disjoint three-element chains, and an avail ring with exactly the posted chains, across index wrap-around |
| Virtio.CompleteOk | kernel/virtio_disk.c:311-324 | a completion by the device, in any order, keeps the invariant |
| Virtio.NextUsed | kernel/virtio_disk.c:311-321 | the used entry read names a chain whose buffer is waiting |
| Virtio.DropOk | kernel/virtio_disk.c:288-289 | freeing a finished chain keeps the invariant |
| VirtioCode.Driver.constructor | kernel/virtio_disk.c:62-151 | after virtio_disk_init the invariant holds with all descriptors free |
| VirtioCode.Driver.AllocDesc | kernel/virtio_disk.c:156-166 | the first free descriptor, or none is free |
| VirtioCode.Driver.Alloc3Desc | kernel/virtio_disk.c:201-213 | three different free descriptors, or none taken and fewer than three free |
| VirtioCode.Driver.FreeChain | kernel/virtio_disk.c:185-197 | exactly the three descriptors of the chain are freed, each in use before |
| VirtioCode.Driver.Submit | kernel/virtio_disk.c:215-279 | the request is posted as a new chain, or nothing changes and fewer than three descriptors are free |
| VirtioCode.Driver.Intr | kernel/virtio_disk.c:294-327 | the device may take and complete more chains before each test of its index: at the last test no completed chain is left unseen, and exactly the buffers of the chains seen are released, whatever the 16-bit indices are |
| VirtioCode.Driver.Finish | kernel/virtio_disk.c:283-292 | the finished chain goes, all others stay |
| VirtioCode.Driver.DeviceTake | kernel/virtio_disk.c:270-279 | the device gets heads in the order they were posted, none overwritten |
| VirtioCode.Driver.DeviceComplete | kernel/virtio_disk.c:307-311 | the device's entry joins the used ring without overwriting one not yet seen |
| VirtioCode.Driver.DeviceRuns | kernel/virtio_disk.c:307-311 | the device takes posted chains and completes any it has taken, in any order; chains only advance and no buffer is released by it |
| LinkCode.DirLookup | kernel/fs.c:557-580 | the first entry with the name, or there is none |
| LinkCode.DirLink | kernel/fs.c:585-611 | fails exactly when the name exists or there is no room; otherwise fills the first empty slot |
| LinkCode.IsDirEmpty | kernel/sysfile.c:189-202 | true exactly when no entry after the first two is in use |
| LinkCode.FileTree.constructor | mkfs/mkfs.c:117-128 | what mkfs makes satisfies the invariant |
| LinkCode.FileTree.SysLink | kernel/sysfile.c:139-186 | -1 exactly for a listed cause and a panic of ilock exactly on a free inode, with exactly the old state; otherwise one name and one link more, and all counts are right if and only if the parent still has a name and the 16-bit count did not wrap |
| LinkCode.FileTree.SysUnlink | kernel/sysfile.c:204-259 | one name and its links less, all counts right, or exactly the old state for a listed cause; the nlink panic is out of reach, in a nameless directory too |
| LinkCode.FileTree.Create | kernel/sysfile.c:261-320 | a new inode with its name and, for a directory, dots and the parent's link; the existing file of that name; or exactly the old state for a listed cause, a panic of ilock exactly for .. in a nameless directory whose parent is gone; all counts are right if and only if the parent still has a name and its count did not wrap |
| LinkCode.FileTree.MakeInode | kernel/sysfile.c:281-320 | a new inode, its dots, its name and the parent's count together, right under the same exact condition, or the inode freed again and nothing else changed |
| LinkCode.NamelessRun | kernel/sysfile.c:204-320 | the same as calls of the code, all of which succeed |
| LinkCode.FileTree.Existing | kernel/sysfile.c:272-279 | an existing name is opened exactly if it is not a directory and a file was asked for; ilock panics exactly on a free inode, which only the .. of a nameless directory can lead to |
| LinkCode.FileTree.FreeInode | kernel/fs.c:341-366 | freeing an inode without links changes no count |
| Links.FreshTreeOk | mkfs/mkfs.c:117-128 | a root directory with its dots and free inodes satisfy the invariant |
| Links.NamePlainExactly | kernel/sysfile.c:139-186 | a new name for a file keeps every count equal to the number of names if and only if the directory still has a name and the file's count is below 32767 |
| Links.NameDirExactly | kernel/sysfile.c:261-320 | a new directory keeps every count equal to the number of names, its .. counted in the parent, if and only if the parent still has a name and its count is below 32767 |
| Links.NamelessBreaks | kernel/sysfile.c:261-320 | mkdir, rmdir and a file made in the directory that has lost its name, step by step: all counts are right until the last step makes one wrong |
| Links.UnlinkPlain | kernel/sysfile.c:236-253 | erasing a file's name keeps all counts |
| Links.UnlinkDir | kernel/sysfile.c:232-253 | removing an empty directory keeps all counts, though its ".." stops counting |
| Links.EmptyDirLinks | kernel/sysfile.c:189-243 | an empty directory has exactly one link and its parent at least two |
| Links.NamedHasLink | kernel/sysfile.c:231-232 | what a live directory names has at least one link |
| Umalloc.FreeAtOk | user/umalloc.c:31-43 | what free writes is the list with the block linked in and joined to adjacent free neighbours, same units |
| Umalloc.SplitOk | user/umalloc.c:79-83 | handing out the tail of a block keeps list, tiling and gaps |
| Umalloc.TakeOk | user/umalloc.c:77-78 | handing out a whole block keeps list, tiling and gaps |
| Umalloc.GrowOk | user/umalloc.c:46-60 | a region from sbrk joins the tiling as one block |
| Umalloc.TilesApart | user/umalloc.c:24-90 | blocks never overlap |
| MallocCode.Heap.constructor | user/umalloc.c:21-22 | a process before its first malloc satisfies the invariant |
| MallocCode.Heap.FindSpot | user/umalloc.c:29-31 | the search round the cycle stops at the block's place in address order |
| MallocCode.Heap.Free | user/umalloc.c:24-44 | the free list is again one address-ordered cycle with no adjacent free blocks; other allocated blocks and all units stay |
| MallocCode.Heap.Morecore | user/umalloc.c:46-61 | if the int passed to sbrk is the size used: exactly the region's units are added, with room for the request at freep or right after it; a refusal changes nothing |
| MallocCode.Heap.Malloc | user/umalloc.c:63-90 | for every request: a block of the units asked for, apart from all others; sbrk is asked only if no free block is large enough; none only if it refuses, or if sbrk is asked for something else, which happens if and only if the request exceeds 0x7fffffe0 bytes and no free block is large enough; one successful morecore is enough |
| MallocCode.OnlyOnce | user/umalloc.c:86-88 | after a successful morecore the search never comes round to freep without success |
| MallocCode.RequestFits | user/umalloc.c:46-60 | the int passed to sbrk is the size used if and only if the request is at most 0x7fffffe0 bytes |
| MallocCode.RequestWraps | user/umalloc.c:46-60 | one byte more and sbrk is asked for a negative number |
| ShellRoundTrip.RoundTrip | user/sh.c:433-535 | parsing the fully parenthesised printing of a command tree gives the tree |
| ShellRoundTrip.PrintInjective | user/sh.c:433-535 | no two trees print alike |
| ShellRoundTrip.LineTrip | user/sh.c:433-461 | the same inside a line, up to its end or a closing parenthesis |
| ShellCode.LineOk | user/sh.c:433-448 | every word of a parse is a maximal run of word characters of the line |
| ShellCode.ArgCount | user/sh.c:505-535 | argv never overflows |
| ShellCode.ParsedWordsIntact | user/sh.c:538-582 | after nulterminate each word reads as its exact text and damages no other |
| ShellCode.Line.PeekAt | user/sh.c:377-387 | the position moves past white space and the answer is about the next character |
| ShellCode.Line.Next | user/sh.c:332-375 | the token's kind and span, and the position after it |
| ShellCode.Line.Redirs | user/sh.c:463-486 | wraps the command in exactly the redirections that follow, or fails on a missing file |
| ShellCode.Line.ExecOrBlock | user/sh.c:504-535 | arguments and redirections in any order give one command under its redirections |
| ShellCode.Line.Block | user/sh.c:488-502 | a parenthesised line with its redirections |
| ShellCode.Line.Pipes | user/sh.c:450-461 | pipelines nest to the right |
| ShellCode.Line.WholeLine | user/sh.c:433-448 | background marks and lists around pipelines; the parse terminates on every line |
| ShellCode.Line.NulTerminate | user/sh.c:538-582 | exactly the characters after the words become NUL |
| ShellCode.Line.Parsecmd | user/sh.c:394-407 | the parse of the whole line with every word NUL-terminated in place |
| Grep.MatchHere | user/grep.c:85-96 | true exactly when some prefix of the text is in the pattern's language, the whole text under a final $ |
| Grep.MatchStar | user/grep.c:99-106 | true exactly when some run of fitting characters is followed by a match |
| Grep.Match | user/grep.c:72-82 | true exactly when some substring matches, at the start under ^ |
| Grep.HereStar | user/grep.c:89-90 | the language of c* re at the beginning of the text, by the length of the run |
| Grep.HereSingle | user/grep.c:93-94 | the language of a single character followed by a pattern |
| Grep.PlainMatches | user/grep.c:72-96 | a pattern without operators matches exactly the texts that contain it |

## Left out

- The composition of several file operations in one transaction with other processes' operations: the file layer runs one operation at a time; buffer and inode locks are the reason it may.
- sys_open itself, some exits of which return without end_op; what then becomes of the log is `NeverEnded`.
- MallocCode.Heap.Malloc: says nothing of what a process does after its sbrk was asked for a wrapped size.
- LogCode.Log.LogWrite: asks for a block within the allowance of the operation, which begin_op's callers promise.
- ExecCode.Exec: the ELF header, the program headers and the bytes that readi delivers are inputs; the program's name and registers are not part of the model.
- FileHoles.WriteLogsEleven: shows one disk with five bitmap blocks, not every one.
- LinkCode.DirLink: whether the directory can grow by one entry is an input, decided by writei.
- ProcImage.Fork: open files, the working directory, registers and the name are not part of the model.
- LinkCode.FileTree.Create: major, minor and mode fields and making device nodes are not part of the model; existing devices count as plain files.
- ProcImage.UserAlloc: asks for no more managed pages than fit below the trapframe, which PHYSTOP guarantees.
- FileTrunc.Itrunc: the number of bitmap blocks logged is not bounded by MAXOPBLOCKS for file systems with many bitmap blocks.
- Alignment of what sbrk returns to whole headers in user/umalloc.c: addresses count headers.
- The contents of disk sectors, status bytes, memory barriers and MMIO in kernel/virtio_disk.c.
- VirtioCode.Driver.Submit: one step, because the device reads nothing of a request before the avail index moves.
- Atomicity of sleep and wakeup in PipeRuns is taken from NoLostWakeup rather than composed with it step by step.
- copyin and copyinstr, copyout elsewhere than in exec, and the kernel's own page table in kernel/vm.c.
- Inode references (iget, idup, iput's counting), path walking (skipelem, namex) and ialloc's scan.
- Permission checks, sys_lseek, chmod and the other added system calls.
- runcmd and the cd case of parsecmd in user/sh.c; reading and printing lines in user/grep.c.
- Fairness and progress of the scheduler; spinlock.c's interrupt bookkeeping; kernel/mutex.c.
- Booting, traps, the console, printf and the small user programs.
