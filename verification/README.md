# The Weenix kernel in Dafny

This project models three parts of the Weenix teaching kernel and proves properties of all their runs.

**Virtual memory.** Address spaces are sorted lists of areas over memory objects. Private areas point at
chains of shadow objects, pages live in a hashed frame cache, and everything is counted by references.
The main result is that copy-on-write refines eager copying: every run of forks, loads, stores, kernel
reads and writes, maps, unmaps, breaks, syncs and exits over shadow objects is, outcome by outcome, a run
of a machine in which fork copies the whole address space, up to a step at which the code itself leaves its
data structures, each such end with its exact condition (`MemoryRuns.Run`).

| file | part |
|---|---|
| `Lists` | lists and options |
| `Chains` | shadow chains, reading through them and counting references, on values |
| `VmState`, `FrameCache`, `PageLookup`, `Objects`, `Upkeep` | frames and objects: pframe.c, anon.c, shadow.c |
| `AreaList`, `AddressSpace`, `Removal`, `Sharing`, `Mapping` | address spaces: vmmap.c, brk.c |
| `EagerCopy`, `EagerRuns`, `EagerLaws` | the eager machine, its runs, and what it shows |
| `CopyOnWrite`, `ForkSpace`, `KernelAccess` | page faults, fork, and the kernel's own accesses: pagefault.c, fork.c, vmmap.c |
| `MemorySteps`, `MemoryRuns` | the steps of the kernel and its runs, against the eager machine |
| `AfterSplit`, `Breaks` | what follows a split, and what a growing break shows |
| `Threads`, `ThreadRuns`, `ThreadEffects`, `Scheduler` | sched.c, sched_helper.c, kmutex.c, kthread.c |
| `Processes`, `ProcessRuns`, `ProcessEffects`, `ProcessTable` | proc.c |
| `Vnodes`, `VnodeCache` | vnode.c |
| `PathWalk`, `PathTrails` | namev.c |

**Threads, mutexes and processes.** The kernel is not preemptive, so the code between two blocking calls is
one step. `Threads` and `Processes` are step machines with their invariants, `ThreadRuns` and `ProcessRuns`
their runs; `Scheduler` and `ProcessTable` hold the code, proved to take exactly these steps. `ThreadEffects`
and `ProcessEffects` say of every step what it changes and that it changes nothing else.

**Vnodes and paths.** `Vnodes` is the protocol of vget and vput between their blocking points, `VnodeCache`
its code. `PathWalk` compares the in-place path parser with recursion over components, and `PathTrails` says
what that recursion finds, in terms of directory entries alone.

Conventions:

- A pointer is a number into a map that holds the structures in use. A freed structure leaves its map, so
  each use after free would be a failed proof or an outcome of its own, but for one write to a count that is
  listed for `Objects.Put` under "Left out". Newer objects have larger numbers.
- A step goes astray when it takes mmobj_bottom_vmas of an object for a list of areas and there is none: the
  object is a shadow whose mmo_bottom_obj has been freed or is itself a shadow. fork, a split, pframe_clean and
  pframe_free do that (pframe_remove_from_pts). `VmState.HasList` is the test. It fails only after a split.
- Every assertion of the C code in the functions modelled is an obligation: a `requires` that callers meet,
  an `assert`, or an outcome with its exact condition.
- list.h, mmobj.h, config.h and mm.h are not part of this model. A list is a sequence; an iteration fetches
  the next link before its body runs. mmobj_bottom_obj of an object that shadows nothing is the object
  itself. PROC_MAX_COUNT, NAME_LEN, the size of the frame hash and the user address range are parameters; a
  page has 4096 bytes. A vnode has lookup, create and mkdir operations exactly when it is a directory, and
  a failing lookup does not write its result.
- What a fresh frame holds, the answers of query_vnode, lookup and create, and the interrupts that arrive
  while the run queue is empty are parameters.
- A property the code does not have is stated with the exact condition under which it holds, and with a
  concrete case in which it fails:

| property | exactly when | fails in |
|---|---|---|
| a write gets the page that was read before | `PageLookup.WriteExact` | `Chains.SplitWriteLosesZeros`, `Removal.SplitThenDrop` |
| a fork finds the list of areas it inserts into | `ForkSpace.Fork` | `AfterSplit.ForkAfterSplit`, `AfterSplit.ForkAfterDrop` |
| an unmapping finds the lists it walks and inserts into | `Removal.Remove` | `AfterSplit.SplitTwice` |
| an exit finds the lists it walks | `Mapping.DestroySpace` | `AfterSplit.WrittenThenExit` |
| growing the break shows zeros | `Breaks.ShowsZeros` | `Breaks.RegrownHeap` |
| a kernel read or write moves all its bytes | `KernelAccess.ReadMoves`, `KernelAccess.WriteMoves` | `KernelAccess.ReadWitness`, `KernelAccess.WriteWitness` |
| a kernel read or write stays within its pages and buffer | `KernelAccess.ReadMoves`, `KernelAccess.WriteMoves` | `KernelAccess.OverrunWitness` |
| a fault is judged by the protection of the page | `EagerCopy.ExecNotChecked` | `EagerCopy.ExecWitness` |
| migrating a page changes nothing read | `Upkeep.MoveExact` | `Upkeep.MoveWitness` |
| a cancellable lock does not panic | `Scheduler.Kernel.LockCancellable` | `ThreadRuns.PanicHappens` |
| km_holder names a thread that exists | `Threads.DestroyExact` | `ThreadRuns.FreedHolderHappens` |
| an exit leaves every process a running parent | `Processes.ExitExact` | `ProcessRuns.FreedInitHappens`, `ProcessRuns.DeadInitHappens` |
| the assertion about pid 1 holds | `Processes.PidFits` | `ProcessRuns.ReissueHappens` |
| pids are unique | `ProcessRuns.AlwaysUnique` | `ProcessRuns.RepeatedPid` |
| init is woken for every dead child | `ProcessRuns.NeverStuck` | `ProcessRuns.StrandingHappens` |
| do_waitpid reports the child's status | `ProcessTable.Table.WaitMore` | `ProcessRuns.MisreportHappens` |
| a thread in vget is woken when the vnode is ready | `Vnodes.NeverStuck` | `Vnodes.StuckHappens` |

## Model

| member | source | states |
|---|---|---|
| Chains.ReadAgrees | K3/shadow.c:152-191 | what a reader sees through an object depends only on the links and pages of the objects on its chain |
| Chains.OffChain | K3/shadow.c:157-177 | an object that nothing shadows lies on no chain but its own |
| Chains.WriteIsPrivate | K3/shadow.c:192-212 | a write to a page of an object that nothing shadows is seen through that object at that page and nowhere else |
| Chains.WriteAtEnd | K3/shadow.c:192-212 | a write to a page of a last object is not seen through chains that end elsewhere |
| Chains.LookupUnseen | K3/shadow.c:152-217 | a lookup that makes resident only what a read would have found, and zeros at the end of a chain, changes no read of any object |
| Chains.FreshShadow | K3/shadow.c:71-81 | a new shadow without pages reads as the object below it, and no older object reads differently |
| Chains.FreshShadowEnd | K3/shadow.c:71-81 | a new shadow moves the end of no chain, and its own chain ends where the one below it ends |
| Chains.BelowIgnores | K3/shadow.c:244-265 | the search of shadow_fillpage, which starts below the shadow, does not find the half-filled page already in the hash |
| Chains.FillFaithful | K3/shadow.c:231-279 | with mmo_bottom_obj at the end of the chain, the copy shadow_fillpage makes is what a read lookup would have returned, for every chain and every residency |
| Chains.ReadHalfFilled | K3/shadow.c:267-271 | a search from any object on finds the page that shadow_fillpage is filling, and what its frame held, exactly when it comes to the shadow before any other copy of the page |
| Chains.FillExact | K3/shadow.c:231-279 | for every mmo_bottom_obj the copy is what a read lookup would have returned, whatever the frame held, if and only if some object strictly below holds the page or the search from mmo_bottom_obj finds zeros before it comes to the shadow |
| Chains.SplitWriteLosesZeros | K3/vmmap.c:516-526 | the smallest failing case: a write after a split copies what the frame held instead of zeros |
| Chains.BareReads | K3/vmmap.c:496-531 | through shadows without pages one reads what the last object of the chain holds |
| Chains.StaysBare | K3/vmmap.c:496-531 | shadows stay without pages when pages are added off their chain or at its end |
| Chains.NewRoot | K3/anon.c:58-69 | creating an object conserves references, the creator holding the first one |
| Chains.PushConserves | K3/fork.c:79-91 | putting a shadow over a held object conserves references: the shadow takes over the old one and the caller holds the new one |
| Chains.DestroyTop | K3/shadow.c:118-135 | destroying an object whose last reference is spent conserves references: the one it held on the object below passes to the put that follows |
| Chains.DropConserves | K3/shadow.c:108-140 | giving back one reference conserves all others, however far the destruction runs down the chain |
| Chains.DropFreesPrefix | K3/shadow.c:108-140 | a put frees an object if and only if the object is reached from the one put only through objects that nobody else refers to |
| Chains.DropLeavesReached | K3/shadow.c:108-140 | after a put exactly the objects that some other reference leads to are left |
| Chains.LiveIffReachable | K3/shadow.c:108-140 | under conservation an object exists if and only if some held reference reaches it down a chain |
| VmState.Kernel.constructor | K3/pframe.c:123-145 | the empty frame cache satisfies the frame, object and quiescence invariants |
| FrameCache.ChainHolds | K3/pframe.c:195-205 | the hash chain of (object, page) holds only live frames, and holds the frame of that page if there is one |
| FrameCache.GetResident | K3/pframe.c:190-211 | finds the one frame of (object, page), exactly when it is resident, and only sends an unpinned one to the end of the allocated list |
| FrameCache.LinkHash | K3/pframe.c:249-249 | inserting a frame at the head of its chain keeps every frame in its own chain once |
| FrameCache.LinkPages | K3/pframe.c:250-253 | inserting a frame into its object keeps respages and nrespages exact for every object |
| FrameCache.AllocFrame | K3/pframe.c:227-256 | adds one frame, linked into hash, object and the end of the allocated list, which takes one reference on the object; the index stays exact |
| FrameCache.Pin | K3/pframe.c:393-412 | one more pin, and with the first the frame moves to the end of the pinned list; lists and counters stay exact |
| FrameCache.Unpin | K3/pframe.c:425-445 | one pin less, and with the last the frame moves to the end of the allocated list; lists and counters stay exact |
| PageLookup.GetAnon | K3/anon.c:134-163 | a page of an anonymous object: the resident one, or a new one of zeros, and nothing else changes |
| PageLookup.LookupRead | K3/shadow.c:160-190 | the loop down the chain returns a frame with exactly the bytes the chain reads, of the page asked for and not busy as asserted, and makes at most a zero page at the end resident |
| PageLookup.SearchBelow | K3/shadow.c:244-265 | the loop of shadow_fillpage finds a frame exactly when an object strictly below holds the page, and then its bytes are the copy that must be made |
| PageLookup.FillShadow | K3/shadow.c:231-279 | for a busy frame that is not pinned: pins it once and copies the first resident page strictly below, else what a lookup through mmo_bottom_obj finds; it follows freed memory exactly when no object below holds the page and mmo_bottom_obj has been freed |
| PageLookup.GetShadow | K3/pframe.c:339-377 | a page of a shadow brought in for writing is dirty, pinned once and holds the copy, unless the copy follows freed memory |
| PageLookup.LookupWrite | K3/shadow.c:192-212 | lookup for writing returns the top object's own frame, resident or copied up, in the state every quiet frame is in, for every mmo_bottom_obj |
| PageLookup.PageForRead | K3/shadow.c:160-190 | a read fault returns what was read before, changes no read of any object, and keeps every frame and object invariant |
| PageLookup.PageForWrite | K3/shadow.c:192-277 | a write fault on any object, whatever its mmo_bottom_obj: fails exactly when it follows freed memory, else keeps all invariants and leaves the top object with the copy |
| PageLookup.WriteExact | K3/shadow.c:231-279 | for every object and every mmo_bottom_obj, freed ones included: the page built for a write is the page read before, whatever a fresh frame holds, if and only if the write is safe: it is an anonymous object, or the page is resident on its chain, or mmo_bottom_obj is live and the search from it finds zeros before it comes to the object |
| PageLookup.BottomSafe | K3/shadow.c:267-271 | with mmo_bottom_obj at the end of the chain every write is safe, for every chain length and residency |
| Objects.Dirty | K3/pframe.c:460-475 | sets the dirty bit and ends not busy; no list changes |
| Objects.Clean | K3/pframe.c:487-516 | clears the dirty bit of an unpinned dirty frame, the copy of shadow_cleanpage finding the frame itself; goes astray if and only if mmobj_bottom_vmas of the frame's object leads to no list of a live anonymous object |
| Objects.UnlinkFrame | K3/pframe.c:527-552 | removes a frame from hash, list, counter and object together, with the index exact; goes astray on the walk of the areas under the same condition |
| Objects.FreeFrame | K3/pframe.c:527-559 | the put that pframe_free makes on the frame's object only decrements and references stay conserved; goes astray under the same condition |
| Objects.ReleasePage | K3/shadow.c:121-126 | unpin, clean and free meet all frame assertions on every quiet page and remove that page alone; they go astray under the same condition |
| Objects.ReleasePages | K3/shadow.c:119-129 | the destroy loop frees every resident page once and no other, with refcount equal to nrespages plus one throughout; goes astray if and only if there is a page and mmobj_bottom_vmas leads to no list |
| Objects.Destroy | K3/shadow.c:118-135 | the destroy branch ends with the counts that giving back one reference must leave, under the exact condition of Objects.Put |
| Objects.Put | K3/shadow.c:108-140 | put, reentrant and recursive down the chain, goes astray if and only if one of the objects that must go has a resident page and an mmo_bottom_obj that leads to no list; else it leaves exactly the counts of one reference given back, and survivors keep their pages, chains and everything but their count |
| Objects.SurvivesAlike | K3/anon.c:96-129 | objects that survive a put read as before, end where they ended and stay without pages if they were |
| Objects.AnonCreate | K3/anon.c:58-69 | a new object that reads zeros at every page; all other reads and chain ends stay |
| Objects.PushShadow | K3/shadow.c:71-81 | a new shadow reads as the object below, takes over one reference to it, and leaves all other reads and chain ends as they were |
| Objects.Ref | K3/shadow.c:89-97 | one more reference, with all invariants kept |
| AreaList.AtUnique | K3/vmmap.c:275-293 | in a sorted disjoint list the area that covers a page is unique |
| AreaList.Lookup | K3/vmmap.c:275-293 | returns the area that maps the page, and none exactly when no area does |
| AreaList.IsRangeEmpty | K3/vmmap.c:569-596 | true if and only if no page of the range is mapped |
| AreaList.FindHigh | K3/vmmap.c:206-230 | the highest start where the range fits, or none only if it fits nowhere |
| AreaList.FindLow | K3/vmmap.c:234-261 | the lowest start where the range fits, or none only if it fits nowhere |
| AreaList.FindRange | K3/vmmap.c:196-269 | the range returned is in bounds, empty and the highest or lowest; -1 only if no gap fits; the null pointer is followed exactly on an empty map searched from above, or too small |
| AreaList.Insert | K3/vmmap.c:156-186 | inserts the area at one place and the list stays sorted and disjoint |
| AddressSpace.LiveIffMapped | K3/vmmap.c:540-546 | in every reachable state of the address spaces an object exists if and only if the chain of some area of some process reaches it |
| AddressSpace.DropRef | K3/vmmap.c:543-543 | a put by the area code frees exactly what no area leads to any more, and keeps all invariants and every read of what remains; goes astray if and only if one of the objects that go has pages and leads to no list |
| AddressSpace.ListKept | K3/pframe.c:606-606 | whether mmobj_bottom_vmas of an object leads to a list does not change while the object lives, though the object it leads to may be freed |
| AddressSpace.PushTwo | K3/fork.c:79-91 | two shadows over an object conserve references, read as the object, and end where its chain ends |
| AddressSpace.SplitArea | K3/vmmap.c:496-531 | a range inside an area: two areas over two new shadows read what the area read; both get the first shadow as mmo_bottom_obj, so neither leads to a list; the split itself goes astray if and only if the object it splits leads to none |
| Removal.SplitThenDrop | K3/vmmap.c:496-546 | a split followed by the removal of its first half: the invariants hold, the mmo_bottom_obj of the second half has been freed, and every write there to a page the old object did not hold follows it; goes astray exactly when the split does |
| AddressSpace.TrimArea | K3/vmmap.c:533-552 | an area cut at one end keeps its object and its page numbers follow its start |
| AddressSpace.DropArea | K3/vmmap.c:540-546 | an area inside the range goes, its reference is given back and exactly what no area leads to any more is freed, or goes astray under the condition of AddressSpace.DropRef |
| Removal.RemoveStep | K3/vmmap.c:494-556 | each of the four cases unmaps exactly the pages of the range from the area, with its exact condition for going astray; without a split no object is created |
| Removal.RemoveRound | K3/vmmap.c:494-556 | one round of the loop keeps list, references and reads right for what is done and what is left, or goes astray, and then the whole removal had to |
| Removal.Remove | K3/vmmap.c:486-562 | goes astray if and only if, in the state before the call, the area to split leads to no list, or an object with pages that only areas inside the range lead to does; else unmaps exactly the pages of the range; every other page keeps protection, object page number and contents, here and in all other processes; the list stays sorted and disjoint and references conserved; a split leaves an area that leads to no list |
| Removal.RoundFails | K3/vmmap.c:494-556 | a round that goes astray does so because of the state the loop started in |
| Removal.RoundsDone | K3/vmmap.c:494-556 | when no round goes astray nothing in the state the loop started in would have made it, and a split has left an area that leads to no list |
| Sharing.EndsApart | K3/vmmap.c:424-441 | a private and a shared area never end in the same object |
| Sharing.UnsplitSurvives | K3/vmmap.c:540-546 | giving objects back keeps every mmo_bottom_obj at the end of its chain and shared areas on anonymous objects, as long as no area has been split |
| Sharing.UnsplitGrows | K3/vmmap.c:419-441 | new objects with right mmo_bottom_objs keep the same |
| Sharing.UnsplitLists | K3/pframe.c:606-606 | as long as no area has been split mmobj_bottom_vmas of every object leads to a list |
| Mapping.InsertPlaces | K3/vmmap.c:156-186 | the inserted area maps its own pages, and all other pages are mapped as before |
| Mapping.NewBacking | K3/vmmap.c:414-441 | an anonymous object, under a shadow when private, that reads zeros; its chain end and mmo_bottom_obj are right |
| Mapping.Unmap | K3/vmmap.c:486-562 | vmmap_remove with its effect on every process, split or not, and its exact condition for going astray; without a split the mmo_bottom_objs stay right |
| Mapping.MakeRoom | K3/vmmap.c:382-401 | chooses a free range, displacing nothing, or unmaps the range asked for; fails only if nothing fits, and goes astray exactly when the unmapping does |
| Mapping.MapAnon | K3/vmmap.c:361-454 | the range shows zeros with the given attributes and every other page, in every process, shows what it showed; goes astray exactly when making room does |
| Mapping.DestroySpace | K3/vmmap.c:131-149 | goes astray if and only if an object with pages that only this process leads to leads to no list; else gives back every area, the objects that remain read as before and references stay conserved |
| Mapping.GrowOk | K3/brk.c:92-100 | an empty range above the break forces the area found below it to end exactly at the break, so moving its end keeps the list sorted and disjoint |
| Mapping.ExtendArea | K3/brk.c:92-100 | growth extends that one area over the range, and all other pages are as they were |
| Mapping.Brk | K3/brk.c:56-114 | refuses exactly out of bounds, below the heap or into a mapping; growth and shrinking change exactly the pages between the two breaks; it sets nothing exactly when the break stays in its page, follows a null pointer exactly when nothing is mapped below the break, and goes astray exactly when the unmapping of a shrink does; every invariant is kept, and without a split the mmo_bottom_objs stay right |
| EagerCopy.CellAt | K3/pagefault.c:54-80 | what a mapped page means: the protection of its area and the bytes its object reads |
| EagerCopy.MeaningSame | K3/shadow.c:152-217 | memory that reads the same through every area means the same |
| EagerCopy.ForkMeaning | K3/fork.c:77-102 | two address spaces that show the parent's pages mean a copy of the whole address space |
| EagerCopy.PrivateStore | K3/pagefault.c:81-105 | a write seen at one page of one private area is that process's store to its own page |
| EagerCopy.SharedStore | K3/pagefault.c:81-105 | a write to the last object of a shared area is a store to the shared page, for every process that names it |
| EagerCopy.UnmapMeaning | K3/vmmap.c:486-562 | removal, with or without a split, means dropping the pages, and the shared objects nobody names any more |
| EagerCopy.ExitMeaning | K3/vmmap.c:131-149 | destroying an address space means dropping all its pages |
| EagerCopy.MapMeaning | K3/vmmap.c:361-454 | an anonymous mapping means zeros, owned or shared under a new name |
| EagerCopy.GrowMeaning | K3/brk.c:92-100 | a longer area means more pages of its kind: of the shared object, or private ones with the bytes its object reads |
| EagerCopy.SpawnMeaning | K3/vmmap.c:111-126 | an empty map means a process without pages |
| EagerCopy.ExecNotChecked | K3/pagefault.c:61-72 | the handler judges an access as the area's protection does if and only if the access is not a fetch from a mapped page without PROT_EXEC that is otherwise let through |
| EagerCopy.ExecWitness | K3/pagefault.c:61-72 | a fetch from a page that is not executable and is let through |
| CopyOnWrite.MarkDirty | K3/pagefault.c:95-99 | pin, dirty and unpin leave every frame quiet, shadow pages pinned once |
| CopyOnWrite.PageFault | K3/pagefault.c:54-111 | kills exactly the accesses the tests refuse, stops exactly at writes that are not safe, otherwise gives a frame with the page's bytes, which after a write fault is the top object's own, dirty, not busy, and pinned once for a shadow and not at all for an anonymous object; it changes no process's memory |
| CopyOnWrite.WritablePage | K3/pagefault.c:95-99 | the write branch leaves the frame dirty with its pin count at rest, for anonymous and shadow objects alike |
| CopyOnWrite.SafeExact | K3/shadow.c:241-277 | the test of a page against frames and links is, for private areas, exactly the condition under which a write finds the page that was read before |
| CopyOnWrite.UnsplitSafe | K3/vmmap.c:516-526 | as long as no area has been split every page of every area may be written |
| CopyOnWrite.SplitUnshares | K3/vmmap.c:516-526 | why a shared area must not be written after it was split: the write is read through its own shadow and by none of the other sharers |
| CopyOnWrite.LookupKeeps | K3/shadow.c:152-217 | a lookup whose page is what a read would have found keeps every invariant and the memory of every process |
| CopyOnWrite.PrivateClear | K3/fork.c:77-102 | no object is above the object of a private area, and no other area of any process refers to it |
| CopyOnWrite.PrivateWrite | K3/pagefault.c:81-105 | writing the shadow of a private area is a store to that one page of that one process |
| CopyOnWrite.SharedWrite | K3/pagefault.c:81-105 | writing the object of a shared area is a store to the shared page |
| CopyOnWrite.OneArea | K3/vmmap.c:424-441 | an object with one area reference backs one area |
| CopyOnWrite.WriteFrame | K3/pagefault.c:81-105 | a store through the writable frame changes that page of that process, or the shared page, and nothing else anywhere |
| CopyOnWrite.Load | K3/pagefault.c:54-111 | a load returns what the eager machine holds, or faults exactly when the protection forbids it |
| CopyOnWrite.Store | K3/pagefault.c:54-111 | a store that is safe is the eager machine's store and leaves its frame dirty, and one is refused exactly when the protection forbids it |
| ForkSpace.CloneMap | K3/vmmap.c:300-333 | copies every area in order, without its object |
| ForkSpace.ForkPrivate | K3/fork.c:79-92 | both processes get a shadow that reads as the old object and leads to a list exactly when that did; the old object backs no area any more; references stay conserved |
| ForkSpace.ForkShared | K3/fork.c:93-97 | the child's area refers to the same object, counted |
| ForkSpace.ForkArea | K3/fork.c:77-102 | one round keeps the child's and the parent's areas showing what the parent showed at the start, and mmo_bottom_objs right if they were; goes astray if and only if mmobj_bottom_vmas of the area's object leads to no list |
| ForkSpace.ForkedViews | K3/fork.c:77-102 | after the loop every process sees what it saw, and the child what the parent sees |
| ForkSpace.Fork | K3/fork.c:77-102 | fork over shadow objects goes astray if and only if some area of the parent leads to no list, and is else the eager machine's copy of the whole address space |
| KernelAccess.ReadMoves | K3/vmmap.c:607-662 | for all 32-bit addresses and sizes: vmmap_read stays within its pages and its buffer if and only if the range does not wrap around to the page it starts in, and moves all the bytes asked for if and only if the range and the byte after it do not wrap around and lie in at most two neighbouring pages |
| KernelAccess.WriteMoves | K3/vmmap.c:673-731 | for all 32-bit addresses and sizes: vmmap_write stays within its pages and its buffer if and only if the range does not wrap around to the page it starts in and is not the empty one at address 0, and moves all the bytes given if and only if they lie in one page |
| KernelAccess.OverrunWitness | K3/vmmap.c:607-662 | a read that wraps around and copies from beyond its page |
| KernelAccess.ReadWitness | K3/vmmap.c:607-662 | a read over three pages that takes one byte where a whole page was due |
| KernelAccess.WriteWitness | K3/vmmap.c:673-731 | a write of two bytes over a page boundary that drops the second |
| KernelAccess.ReadRight | K3/vmmap.c:607-662 | where vmmap_read moves everything, each byte is the process's byte at that address |
| KernelAccess.WriteRight | K3/vmmap.c:673-731 | where vmmap_write moves everything, the page holds the bytes at their addresses and is otherwise as it was |
| KernelAccess.FindPage | K3/vmmap.c:614-617 | lookup and pframe_lookup for writing, as both functions call them: the null pointer exactly when nothing is mapped; no process's memory changes |
| KernelAccess.ReadUser | K3/vmmap.c:607-662 | for all 32-bit arguments reads exactly the planned pieces in order, up to a page that is not mapped or may not be written or a piece that does not fit its page and the buffer; every invariant and all memory stay |
| KernelAccess.PutBytes | K3/vmmap.c:681-686 | one piece of vmmap_write is the eager machine's store of these bytes, protection aside, into the top object's own frame, which ends dirty, anonymous or not |
| KernelAccess.WriteUser | K3/vmmap.c:673-731 | for all 32-bit arguments stores exactly the planned pieces in order, up to a page that is not mapped or may not be written or a piece that does not fit its page and the buffer; every invariant stays |
| EagerRuns.BehavesOn | K3/fork.c:77-102 | runs of the eager machine extend step by step |
| EagerRuns.Isolation | K3/fork.c:77-102 | whatever other processes do in a run, a process that takes no step keeps its mappings and its own bytes |
| EagerRuns.Snapshot | K3/fork.c:77-102 | the child of a fork that succeeded, if it takes no step, holds after any run the parent's memory at the fork |
| EagerLaws.ForkShows | K3/fork.c:77-102 | after a fork the child finds the parent's protections and bytes, and everyone else their own |
| EagerLaws.StoreShows | K3/pagefault.c:81-105 | after a store each byte of each page of each process is the one stored if the page is the same memory and was writable, and else the one before |
| EagerLaws.StoreMapsNothing | K3/pagefault.c:81-105 | a store maps and unmaps nothing |
| EagerLaws.UnmapShows | K3/vmmap.c:486-562 | after an unmapping a page is found, with protection and bytes, if and only if it was and is not in the range of that process |
| EagerLaws.ExitShows | K3/vmmap.c:131-149 | after an exit a page is found if and only if it was and is another process's |
| EagerLaws.MapShows | K3/vmmap.c:361-454 | after a mapping the range shows zeros with the protection asked for, and every other page what it showed |
| EagerLaws.MapIsFresh | K3/vmmap.c:414-441 | a page of a new mapping is the same memory as no other page |
| EagerLaws.GrowShows | K3/brk.c:92-100 | after a growing break the new pages continue the page below it, and every other page is as it was |
| MemorySteps.Exit | K3/vmmap.c:131-149 | an exit goes astray exactly as vmmap_destroy does, and is else the eager machine's exit |
| MemorySteps.UnmapRange | K3/vmmap.c:486-562 | an unmapping, whether or not it splits an area, goes astray exactly as vmmap_remove does, and is else the eager machine's; it says exactly whether it split an area, and then the process has an area that leads to no list |
| MemorySteps.MapRange | K3/vmmap.c:361-454 | an anonymous mapping, also over a range that splits an area, goes astray exactly as its unmapping does, and is else the eager machine's, at the highest or lowest room or where it was asked for, under a name nobody uses |
| MemorySteps.MoveBrk | K3/brk.c:56-114 | do_brk goes astray exactly as the unmapping of a shrink does; else it gives the eager machine's answer and unmaps, or maps pages of the area below the break, as the eager machine does; the bytes that growth shows are those the object of that area reads in the state before; it says exactly whether it split an area |
| MemorySteps.Spawn | K3/vmmap.c:111-126 | a new process starts with no pages and changes nothing else |
| MemorySteps.Sync | K3/pframe.c:566-596 | sync ends with no unpinned page dirty and every pinned page as it was; it changes no process's memory and keeps every invariant |
| MemoryRuns.Access | K3/vmmap.c:607-731 | loads, stores and the kernel's reads and writes have an outcome the eager machine allows and lead to its state; one that stops stops at a page that may not be written; none goes astray |
| MemoryRuns.Remap | K3/vmmap.c:361-562 | mapping, unmapping, moving the break and exit go astray exactly under their conditions on the state before, and else have an outcome the eager machine allows and lead to its state |
| MemoryRuns.Step | K3/pagefault.c:54-111 | so does every step of the kernel; the bytes a growing break shows, and whether an area is cut in two, are decided by the state before; a sync leaves no unpinned page dirty |
| MemoryRuns.UnsplitNotAstray | K3/pframe.c:606-606 | no step goes astray as long as no area has been split |
| MemoryRuns.Run | K3/fork.c:77-102 | every run of forks, loads, stores, kernel reads and writes, maps, unmaps, breaks, syncs and exits, across splits, is outcome by outcome a run of the eager machine, and the states it passes mean the eager machine's states, up to a step that follows a null pointer, goes astray, overruns a page or comes to a write that is not safe; each step goes astray, and cuts an area in two, if and only if its condition holds in the state before it; neither going astray nor an unsafe write comes up before an area has been split; references stay conserved and shadow pages dirty and pinned once |
| MemoryRuns.Boot | K3/pframe.c:123-145 | the same for runs from boot on |
| AfterSplit.SplitWrites | K3/vmmap.c:516-526 | right after any split every page of the second half may be written, and of the first half exactly the resident ones |
| AfterSplit.SplitTwice | K3/vmmap.c:528-528 | for every area that leads to a list: after a split a split of its first half goes astray |
| AfterSplit.WrittenThenExit | K3/vmmap.c:131-149 | for every private area that leads to a list: after a split and a write to any page of the second half the exit of the process goes astray |
| AfterSplit.ForkAfterSplit | K3/fork.c:101-101 | a run from boot, with the middle of a mapping unmapped, in which fork goes astray: mmobj_bottom_vmas leads to a live shadow |
| AfterSplit.ForkAfterDrop | K3/fork.c:101-101 | a run from boot, with the middle and then the first part unmapped, in which fork goes astray: mmobj_bottom_vmas leads to a freed shadow |
| Breaks.ShowsZeros | K3/brk.c:92-100 | growing the break shows zeros if and only if the object of the area below the break holds no resident page with other bytes there |
| Breaks.ShrinkThenGrow | K3/brk.c:56-114 | a break that moves down within its area and up again unmaps the pages between and then shows in every page the bytes it showed before |
| Breaks.RegrownHeap | K3/brk.c:92-100 | a run from boot in which growing the break shows a byte that is not zero |
| Upkeep.MoveExact | K3/pframe.c:276-296 | for every dest above the source and every reader: moving a page changes no byte read of it if and only if a reader that comes to dest, where the page was missing, read the same bytes through dest before, and a reader that comes to the source but not to such a dest finds the same bytes below the source; other pages always read the same |
| Upkeep.MoveWitness | K3/pframe.c:276-296 | a reader between the two objects that sees the page go |
| Upkeep.Relink | K3/pframe.c:284-294 | the frame moves between hash chains and objects, the put on the old object never destroys it, and the index stays exact |
| Upkeep.Migrate | K3/pframe.c:276-296 | the page moves to dest, or goes if dest has it; index exact, references conserved, pages still dirty and pinned once; goes astray if and only if the page goes and mmobj_bottom_vmas leads to no list |
| Upkeep.FirstDirty | K3/pframe.c:579-590 | finds a dirty unpinned page exactly when there is one |
| Upkeep.CleanAll | K3/pframe.c:566-596 | ends with no dirty page unpinned, with all contents as they were and no pinned page touched, so no page of a shadow; it never goes astray |
| Threads.EnqueueKeeps | K1/sched.c:31-37 | a thread on no queue enters one: every thread stays on the queue its kt_wchan names, once, and tq_size is the length |
| Threads.DequeueIsRemove | K1/sched.c:46-62 | taking the entry at the tail is removing that thread, whose kt_wchan is the queue |
| Threads.WokenKeeps | K1/sched_helper.c:34-49 | waking a waiter keeps the invariant and shortens the queue by one |
| Threads.DrainedKeeps | K1/sched_helper.c:52-62 | broadcasting keeps the invariant and ends with the queue empty |
| Threads.SleepKeeps | K1/sched_helper.c:23-31 | going to sleep, cancellable or not, on a wait queue or for a mutex, keeps the invariant |
| Threads.CancelKeeps | K1/sched.c:136-153 | cancelling another thread keeps the invariant |
| Threads.CreateKeeps | K1/kthread.c:86-108 | a new thread, on no queue, keeps the invariant |
| Threads.StartKeeps | K1/sched.c:236-249 | making a new thread runnable keeps the invariant |
| Threads.YieldKeeps | K1/sched.c:236-249 | making the current thread runnable before switching keeps the invariant |
| Threads.ExitKeeps | K1/kthread.c:160-175 | an exited thread is on no queue |
| Threads.CancelSelfKeeps | K1/kthread.c:125-142 | cancelling oneself, which is exiting with the flag set, keeps the invariant |
| Threads.DestroyKeeps | K1/kthread.c:67-75 | freeing an exited thread that no km_holder names keeps the invariant |
| Threads.DestroyExact | K1/kthread.c:67-75 | after a thread is freed every km_holder names a thread if and only if none named the one freed |
| Threads.TakeKeeps | K1/kmutex.c:40-43 | taking a free mutex keeps the invariant |
| Threads.DispatchKeeps | K1/sched.c:208-218 | switching keeps the invariant, and a thread that returns from a lock, or from a cancellable lock not cancelled, holds the mutex |
| Threads.UnlockKeeps | K1/kmutex.c:88-104 | an unlock hands the mutex to the longest waiter, or frees it when nobody waits, never back to the caller, and keeps the invariant |
| ThreadRuns.NextKeeps | K1/sched.c:192-249 | every step of threads, queues and mutexes keeps the invariant |
| ThreadRuns.RunKeeps | K1/sched.c:192-249 | over every run each thread is on at most one queue, the one kt_wchan names; sleepers are on wait queues, runnable threads on the run queue, exited ones on none; tq_size is the length |
| ThreadRuns.AlwaysInv | K1/sched.c:15-18 | the same for every state of every run from boot on |
| ThreadRuns.MutualExclusion | K1/kmutex.c:30-72 | in every state of every run from boot: from the return of a successful lock to the unlock a thread is the only one that has the mutex, is its km_holder, and is not in its queue |
| ThreadRuns.WaitersHaveHolder | K1/kmutex.c:30-72 | in every state of every run from boot a mutex that threads wait for has a km_holder, which exists and is not in its queue |
| ThreadRuns.HeldUntilUnlock | K1/kmutex.c:88-104 | no step but its own unlock takes a mutex from the thread that has it |
| ThreadRuns.OrphanWasCancelled | K1/kmutex.c:64-66 | in every state of every run from boot: a km_holder that neither has the mutex nor is about to return with it has been cancelled |
| ThreadRuns.PanicHappens | K1/kmutex.c:58-66 | a run from boot after which kmutex_lock_cancellable trips the assertion of kmutex_unlock |
| ThreadRuns.FreedHolderHappens | K1/kthread.c:67-75 | a run from boot after which an exited thread is still a km_holder, so that freeing it leaves km_holder dangling |
| ThreadRuns.WaiterStep | K1/sched.c:34-54 | at every step a waiter that is not cancelled keeps or gains its place, gets the mutex exactly when it is next and the mutex is unlocked, and nobody enters ahead of it |
| ThreadRuns.FirstServed | K1/kmutex.c:88-104 | in every run a waiter with k threads ahead of it that is not cancelled owns the mutex after at most k + 1 unlocks |
| ThreadRuns.NoOvertaking | K1/kmutex.c:88-104 | in every run, until a waiter owns the mutex, only threads that were ahead of it are handed it |
| ThreadEffects.CreateAdds | K1/kthread.c:86-108 | a new thread is runnable, not cancelled and on no queue, and nothing else changes |
| ThreadEffects.StartQueues | K1/sched.c:236-249 | a new thread made runnable goes behind everyone on the run queue, and nothing else changes |
| ThreadEffects.YieldQueues | K1/sched.c:236-249 | a thread that yields goes behind everyone on the run queue, and nothing else changes |
| ThreadEffects.SleepEnters | K1/sched_helper.c:23-31 | the caller sleeps, not cancellably, behind everyone on the queue, and nothing else changes |
| ThreadEffects.CancellableSleepEnters | K1/sched.c:101-124 | a cancelled caller does not sleep; any other sleeps cancellably behind everyone on the queue, and nothing else changes |
| ThreadEffects.LockTakesOrWaits | K1/kmutex.c:30-44 | for every state: a free mutex gets the caller as km_holder and the caller goes on; one that is held makes the caller sleep at the end of its queue; every other mutex, queue and thread is as before |
| ThreadEffects.CancellableLockTakesOrWaits | K1/kmutex.c:51-72 | the same for the cancellable lock, which leaves all as it is if the mutex is held and the caller cancelled |
| ThreadEffects.LockThenUnlock | K1/kmutex.c:30-104 | a lock of a free mutex followed by its unlock ends in the state before |
| ThreadEffects.LockedOnReturn | K1/kmutex.c:30-72 | in every run from boot a lock that returns at once leaves the caller with the mutex, alone |
| ThreadEffects.GrantedOnReturn | K1/kmutex.c:30-72 | in every run from boot a lock that had to wait and returns leaves its thread with the mutex, alone |
| ThreadEffects.UnlockHandsOver | K1/kmutex.c:88-104 | an unlock makes the thread at the tail of the queue km_holder and runnable, or frees the mutex if nobody waits; the other waiters keep their places and nothing else changes |
| ThreadEffects.WakeupServes | K1/sched_helper.c:34-49 | a wake-up makes the thread at the tail runnable, behind everyone on the run queue; the others keep their places and nothing else changes |
| ThreadEffects.BroadcastWakesAll | K1/sched_helper.c:52-62 | a broadcast puts all sleepers, in their order, behind everyone on the run queue, and changes nothing else |
| ThreadEffects.CancelWakes | K1/sched.c:136-153 | a cancellable sleeper leaves its queue, whose others keep their order, and goes to the run queue with its flag set; anyone else only gets the flag; nothing else changes |
| ThreadEffects.CancelSelfLeaves | K1/kthread.c:125-142 | cancelling oneself ends in exiting with the flag set, and changes nothing else |
| ThreadEffects.ExitLeaves | K1/kthread.c:160-175 | an exit marks the caller and gives up the processor, and changes nothing else |
| ThreadEffects.DestroyFrees | K1/kthread.c:67-75 | freeing a thread removes it and changes nothing else |
| ThreadEffects.DispatchResumes | K1/sched.c:208-218 | the thread at the tail of the run queue runs on, the others keep their places, and it has the mutex that its lock was granted and no other new one |
| Scheduler.Kernel.constructor | K1/sched.c:15-18 | boots into the invariant |
| Scheduler.Kernel.Enqueue | K1/sched.c:31-37 | queues, kt_wchan and tq_size stay in agreement, and who is on the queue already leaves it first |
| Scheduler.Kernel.Remove | K1/sched.c:70-77 | queues, kt_wchan and tq_size stay in agreement when a thread leaves from the middle |
| Scheduler.Kernel.Dequeue | K1/sched.c:46-62 | takes the thread at the tail, or nothing from an empty queue |
| Scheduler.Kernel.MakeRunnable | K1/sched.c:236-249 | queues, kt_wchan and tq_size stay in agreement, who is on the run queue already runs first, and both assertions hold |
| Scheduler.Kernel.SleepOn | K1/sched_helper.c:23-31 | takes the machine's sleep step: the caller sleeps, not cancellably, at the end of the queue |
| Scheduler.Kernel.CancellableSleepOn | K1/sched.c:101-124 | returns at once exactly when already cancelled, else takes the machine's sleep step: the caller sleeps cancellably at the end of the queue |
| Scheduler.Kernel.WakeupOn | K1/sched_helper.c:34-49 | wakes and returns the longest sleeper, which goes to the end of the run queue; the assertion on its state holds |
| Scheduler.Kernel.BroadcastOn | K1/sched_helper.c:52-62 | the loop wakes every sleeper, in order, and ends with the queue empty and the run queue longer by them |
| Scheduler.Kernel.SchedCancel | K1/sched.c:136-153 | a cancellable sleeper leaves its queue and ends on the run queue, runnable with its flag set; for anyone else only the flag changes; this is the machine's cancel step |
| Scheduler.Kernel.Switch | K1/sched.c:192-220 | waits through the interrupts until some thread is runnable, then resumes the one at the tail of the run queue; it does not return exactly when the run queue stays empty |
| Scheduler.Kernel.Lock | K1/kmutex.c:30-44 | a free mutex gets the caller as km_holder and nothing else changes; else the caller waits at the end of the queue; this is the machine's lock step |
| Scheduler.Kernel.LockCancellable | K1/kmutex.c:51-72 | panics exactly when the holder has been cancelled; a free mutex gets the caller as km_holder and nothing else changes; interrupted exactly when the mutex is taken and the caller was cancelled; otherwise takes the machine's step |
| Scheduler.Kernel.Unlock | K1/kmutex.c:88-104 | makes the longest waiter km_holder, or frees the mutex if there is none; this is the machine's unlock step, and the caller is not the new holder |
| Scheduler.Kernel.Create | K1/kthread.c:86-108 | takes the machine's create step |
| Scheduler.Kernel.Start | K1/sched.c:236-249 | takes the machine's start step |
| Scheduler.Kernel.Exit | K1/kthread.c:160-175 | takes the machine's exit step; kt_wchan is empty as asserted |
| Scheduler.Kernel.Destroy | K1/kthread.c:67-75 | the thread is on no queue when it is freed; takes the machine's step if no km_holder names it, and leaves a km_holder dangling exactly if one does |
| Scheduler.Kernel.Cancel | K1/kthread.c:125-142 | cancelling oneself is the machine's self-cancelling step, cancelling another its cancel step |
| Processes.RootedAtIdle | K1/proc.c:203-250 | following parent pointers from any process ends at idle |
| Processes.InitSet | K1/proc.c:215-247 | proc_initproc has been set once any process but idle exists |
| ProcessRuns.NoLostWakeup | K1/proc.c:411-461 | in every state of every run from boot no process but init sleeps in do_waitpid(-1) beside a dead child, and none sleeps waiting for a child that is dead |
| ProcessRuns.ZombiesAreLeaves | K1/proc.c:427-453 | in every state of every run from boot a dead process is childless and nobody's parent, so reaping it leaves no parent pointer dangling |
| Processes.CreateKeeps | K1/proc.c:203-250 | creation by any process, with idle creating any number of children, keeps tree, list, pids of idle and init, and wake-ups right |
| Processes.ExitKeeps | K1/proc.c:277-311 | an exit that hands its children to a running init, or has none, keeps them right |
| Processes.ExitExact | K1/proc.c:277-311 | after an exit every process but idle has a live running parent if and only if the process had no children, or init exists and runs |
| Processes.ReapKeeps | K1/proc.c:427-453 | reaping keeps them right, also when idle disposes of init while others live |
| Processes.SleepKeeps | K1/proc.c:459-461 | going to sleep in do_waitpid keeps them right |
| Processes.ScheduleKeeps | K1/sched.c:208-216 | running any process that is not asleep keeps them right |
| ProcessRuns.AlwaysInv | K1/proc.c:203-311 | in every state of every run of create, exit, wait, reap and switching from boot, child lists and parent pointers agree, parents run, idle and init have their pids, and no wake-up is lost but init's |
| ProcessRuns.AlwaysATree | K1/proc.c:203-311 | in every such state every process but idle has a running parent that lists it, and following parents ends at idle |
| ProcessRuns.AlwaysUnique | K1/proc.c:174-212 | pids are unique all through a run from boot if and only if it creates no process while all pids are taken and some process has pid -1 |
| ProcessRuns.RepeatedPid | K1/proc.c:174-212 | a run from boot in which pid -1 is given out twice |
| Processes.PidFits | K1/proc.c:203-212 | the pid chosen is never 0 and is 1 only when no init exists; the assertion about pid 1 holds if and only if pid 1 goes to a child of idle |
| ProcessRuns.ReissueHappens | K1/proc.c:203-212 | a run from boot, after init was disposed of, in which pid 1 goes to another process's child and the assertion fails |
| Processes.PidsStayUnique | K1/proc.c:203-212 | after a creation pids are unique if and only if not both: all pids were taken and some process already had pid -1 |
| Processes.ExitStrandsInit | K1/proc.c:290-299 | an exit leaves init asleep in do_waitpid(-1) beside a dead child if and only if init was asleep, was not the parent of the process that exits, and that process had a dead child |
| ProcessRuns.StuckExactly | K1/proc.c:277-461 | any step leaves init asleep beside a dead child if and only if it is such an exit |
| ProcessRuns.NeverStuck | K1/proc.c:277-461 | init never sleeps beside a dead child in a run from boot if and only if the run has no such exit |
| ProcessRuns.StrandingHappens | K1/proc.c:290-299 | a run from boot whose last exit strands init |
| ProcessRuns.FreedInitHappens | K1/proc.c:292-299 | a run from boot, with init disposed of before another child of idle, in which an exit hands children to the freed init |
| ProcessRuns.DeadInitHappens | K1/proc.c:292-299 | a run from boot in which an exit hands children to an init that is dead and not disposed of yet |
| ProcessRuns.MisreportHappens | K1/proc.c:478-484 | a run from boot in which do_waitpid for a pid has stored status 0 for a child that exits with another |
| ProcessEffects.CreateAdds | K1/proc.c:203-250 | a creation adds one running process, last in the list and last child of its creator, init if its pid is 1, and changes nothing else |
| ProcessEffects.ExitChanges | K1/proc.c:277-311 | an exit, field by field and for every process: the one that exits is dead with its status and childless, whoever had it as parent has init, init's list ends with its children, its parent is woken from do_waitpid, and nothing else changes |
| ProcessEffects.ReapTakes | K1/proc.c:427-453 | disposing of a child takes it out of both lists, whose others keep their order, ends the wait, and changes nothing else |
| ProcessEffects.SleepStops | K1/proc.c:459-461 | going to sleep in do_waitpid stores what is waited for, and changes nothing else |
| ProcessEffects.ScheduleRuns | K1/sched.c:208-216 | switching changes only who runs |
| ProcessTable.Table.constructor | K1/proc.c:203-250 | the boot state, idle alone with pid 0, satisfies the invariant and has unique pids |
| ProcessTable.Table.InUse | K1/proc.c:181-189 | true if and only if some process of the list has the pid |
| ProcessTable.Table.GetId | K1/proc.c:174-192 | the first unused pid in cyclic order from next_pid, or -1 exactly when all PROC_MAX_COUNT pids are taken; terminates by cyclic distance |
| Processes.CyclicIs | K1/proc.c:174-192 | the k-th pid in cyclic order is next_pid plus k modulo PROC_MAX_COUNT |
| ProcessTable.Table.Create | K1/proc.c:203-250 | the new process is the last child of the caller and the last of the list; pid 1 makes it init; it panics exactly when pid 1 goes to a child of anyone but idle, and then init has been freed |
| ProcessTable.Table.Cleanup | K1/proc.c:277-311 | trips an assertion exactly in a process with pid -1, follows a freed proc_initproc exactly when there are children and init has been disposed of, and else wakes the parent, moves the children to init and dies; a safe exit keeps the invariant |
| ProcessTable.Table.Reparent | K1/proc.c:292-299 | the loop appends every child to init's list in order and points it to init |
| ProcessTable.Table.WaitAny | K1/proc.c:415-461 | reaps the first dead child in list order with its pid and status, or sleeps exactly when no child is dead, or fails when there is no child on entry |
| ProcessTable.Table.Dispose | K1/proc.c:435-453 | removes the dead child from both lists and frees it |
| ProcessTable.Table.WaitFor | K1/proc.c:465-505 | reaps a dead child with that pid and its status, sleeps on a running one with status 0 stored, or fails exactly when there is none |
| ProcessTable.Table.WaitMore | K1/proc.c:478-501 | after a wake-up reaps the child exactly when it is dead, and reports 0 whatever it exited with, else sleeps again |
| Vnodes.ReferenceKeeps | K3/vnode.c:108-130 | a reference to a vnode that is not busy keeps the protocol's invariant |
| Vnodes.BringKeeps | K3/vnode.c:138-172 | bringing in a file that has no vnode in use keeps one vnode per file |
| Vnodes.ReadyKeeps | K3/vnode.c:177-190 | the end of read_vnode keeps it, with the caller's reference the first |
| Vnodes.PutKeeps | K3/vnode.c:217-274 | vput keeps the invariant, whether or not the vnode is purged and goes |
| Vnodes.PutExact | K3/vnode.c:217-274 | vput starts the deletion if and only if it gives up the last reference, or all that is left are the pages of a vnode without links; else it only lowers the count by one; no other vnode or thread changes |
| Vnodes.PageOutKeeps | K3/pframe.c:552-558 | freeing a page of a vnode keeps it, also when that ends the vnode |
| Vnodes.PageOutExact | K3/pframe.c:552-558 | freeing a page does the same with one page less |
| Vnodes.PageInKeeps | K3/pframe.c:250-253 | caching a page of a vnode keeps it |
| Vnodes.PageInExact | K3/pframe.c:250-253 | caching a page adds one page and one reference to that vnode, and changes nothing else |
| Vnodes.DeleteKeeps | K3/vnode.c:272-291 | the end of delete_vnode keeps it and leaves no thread asleep on the vnode that is freed |
| Vnodes.RunKeeps | K3/vnode.c:100-291 | under every interleaving of vget and vput at their blocking points there is at most one vnode in use per file system and number, a vnode that is not busy has refcount at least 1 and counts every reference, and a busy one has one owner and none |
| Vnodes.AlwaysCounted | K3/vnode.c:100-291 | in every state of every interleaving from boot: one vnode at most per file; a busy vnode is in one thread's read or delete with no references, any other counts pages and references exactly |
| Vnodes.StuckExactly | K3/vnode.c:177-190 | a step leaves a thread asleep on a vnode that is not busy if and only if it ends the read_vnode that thread was waiting for |
| Vnodes.NeverStuck | K3/vnode.c:177-190 | in a run from boot a thread is never asleep on a vnode that is not busy if and only if no step ends a read_vnode it waits for |
| Vnodes.StuckHappens | K3/vnode.c:177-190 | a run from boot in which that happens |
| VnodeCache.Cache.constructor | K3/vnode.c:79-83 | the empty cache satisfies the invariant |
| VnodeCache.Cache.Find | K3/vnode.c:108-136 | finds a vnode in use for the file exactly when there is one |
| VnodeCache.Cache.Reference | K3/vnode.c:90-97 | one more reference; the assertion on the count holds |
| VnodeCache.Cache.Bring | K3/vnode.c:140-172 | a new busy vnode without references at the head of the list, owned by the caller, and no other changes |
| VnodeCache.Cache.Get | K3/vnode.c:100-177 | takes one of the protocol's vget steps: sleeps exactly on a busy vnode, returns exactly one that is not busy with one reference more, creates only when there is none |
| VnodeCache.Cache.GetMore | K3/vnode.c:177-190 | takes the protocol's step at the end of read_vnode: the vnode is not busy and has one reference, and nobody is woken |
| VnodeCache.Cache.Drop | K3/vnode.c:217-271 | the purge loop, with a nested vput per page that only decrements, ends with nrespages 0 and refcount 1; the vnode goes exactly when purged or unreferenced; all assertions hold |
| VnodeCache.Cache.Put | K3/vnode.c:217-274 | takes the protocol's vput step: the vnode is on its way out if and only if this was the last reference or only pages of a vnode without links are left; else only its count is one lower |
| VnodeCache.Cache.FreePage | K3/pframe.c:552-558 | takes the protocol's page-freeing step, with the same condition and one page less |
| VnodeCache.Cache.PutMore | K3/vnode.c:275-291 | wakes every sleeper and no one else, unlinks the vnode, whose neighbours keep their order, and frees it |
| PathWalk.SplitsWalk | K2/namev.c:62-176 | looking the last name up in the directory found is walking down every component; a failure is the failure of that walk, except for a file followed by a slash; the directory found is one |
| PathWalk.ResolveNext | K2/namev.c:120-150 | resolution from a component on is its length check, its lookup and the resolution of the rest |
| PathWalk.NextComponent | K2/namev.c:122-125 | the scan finds exactly the next non-empty part between slashes |
| PathWalk.Walker.LookupRef | K2/namev.c:25-40 | the entry of the name in that directory, with one reference more on success, -ENOENT if there is none and -ENOTDIR without a lookup operation |
| PathWalk.Walker.LookNext | K2/namev.c:105-147 | one round of the loop leaves of the resolution exactly what the component's answer leaves |
| PathWalk.Walker.Walk | K2/namev.c:105-150 | the loop computes the recursive resolution and ends with one reference on the result and none otherwise |
| PathWalk.Walker.Finish | K2/namev.c:153-175 | the checks after the loop, for a trailing slash and for what is left, give the result and its references |
| PathWalk.Walker.DirNamev | K2/namev.c:62-176 | equals the recursive resolution over the non-empty components from root, base or working directory; the directory gains one reference on success and no vnode any on failure |
| PathWalk.Walker.OpenNamev | K2/namev.c:190-237 | resolves, looks up or creates, and refuses to write directories; only a vnode returned gains a reference; the assertion on create holds |
| PathTrails.ComponentsAreNames | K2/namev.c:101-150 | for every spelling of a path, with any slashes before, between and after its names, the components found are the names |
| PathTrails.EndsInSep | K2/namev.c:153-160 | the path ends in a slash exactly when slashes follow its last name |
| PathTrails.Spell | K2/namev.c:101-150 | every path has such a spelling |
| PathTrails.TrailOrBreak | K2/namev.c:105-150 | from every start the names lead from directory to directory all the way, or break off at one of them for a reason |
| PathTrails.DirFinds | K2/namev.c:62-176 | for every trail of directory entries from root, base or working directory along the names, dir_namev gives the last directory and the last name, or -ENOTDIR if slashes follow and what is there is no directory |
| PathTrails.DirBreaks | K2/namev.c:62-176 | for every trail that breaks off, dir_namev gives the errno of the first name that cannot be followed, or the directory if only the last name is missing |
| PathTrails.DirOfSlashes | K2/namev.c:105-116 | a path of slashes gives . in the root, and the empty path -EINVAL |
| PathTrails.OpenFinds | K2/namev.c:190-237 | for every trail of entries, open_namev gives the vnode it ends in, -ENOTDIR if slashes follow what is no directory, and -EISDIR for a directory opened for writing |
| PathTrails.OpenOfSlashes | K2/namev.c:190-237 | a path of slashes opens what . in the root is |
| PathTrails.OpenBreaks | K2/namev.c:190-237 | for every trail that breaks off, open_namev gives the errno of the first name that cannot be followed, or what create answers if only the last name is missing and O_CREAT is given |

## Left out

- Page tables, the TLB, stacks, registers and context switches: memory is modelled at the level of objects and frames, and each load or store is a page fault followed by the access.
- pageoutd's own work, waiting on a busy page, and failing allocations of frames and objects: filling and cleaning a page are one step, in which nobody sees the busy bit.
- File mappings and file-backed objects: anonymous and shadow objects are modelled.
- addr_perm and range_perm, do_mmap and do_munmap argument checks.
- MemoryRuns.Run: stops before a write that is not safe, because its bytes are not determined: mmo_bottom_obj is wrong after a split. CopyOnWrite.Safe is the test, PageLookup.WriteExact says that it is exact for private areas, and a shared area must not be written through the shadow a split gave it (CopyOnWrite.SplitUnshares).
- MemoryRuns.Run: ends with a step that goes astray and says nothing about memory after it, because the step then reads or writes, as a list of areas, what mmo_bottom_obj left there. MemoryRuns.GoesAstray is its exact condition.
- MemoryRuns.Run: ends a kernel read or write at a piece that does not fit its page and the buffer, because the bytes beyond are not part of the model.
- MemoryRuns.Run: takes the break values that do_brk finds in the process as arguments.
- The mmo_vmas lists themselves, which only serve the page tables: what is modelled is whether mmobj_bottom_vmas leads to one.
- KernelAccess.ReadUser: does not say what is in the part of the buffer that is not written.
- ProcessRuns.AlwaysInv: ends a run before an exit that is not safe, because the exit then follows freed memory or leaves children with a dead parent (Processes.ExitExact, ProcessRuns.FreedInitHappens, ProcessRuns.DeadInitHappens).
- ProcessTable.Table.Cleanup: is not for init with children, because the code expects init to have waited for all of them.
- ProcessTable.Table.Cleanup: treats the child list of a dead process as empty, because the list head is left with stale pointers that nothing reads.
- Scheduler.Kernel.LockCancellable: makes no claim about ownership after it returns an error to a thread that had been handed the mutex; ThreadRuns.OrphanWasCancelled says that only a cancelled thread gets there.
- ThreadRuns.RunKeeps: ends a run before an exited thread is freed that a km_holder still names, because the code then leaves km_holder dangling (Threads.DestroyExact, ThreadRuns.FreedHolderHappens).
- Processes with more than one thread, proc_kill and proc_kill_all.
- Vnode mount points, special files, vnode_flush_all, and pages that are busy while vput purges them.
- PathWalk.Walker.DirNamev: takes the file system as fixed during the walk, because changes by other threads while lookup blocks are not modelled.
- Objects.Put: the object leaves the store before the put of the object below it; the code frees it after that put, and then writes to its count once more.
- Upkeep.Migrate: is for shadow objects and is no step of MemoryRuns.Run, because nothing calls pframe_migrate.
- Memory that has been freed is not given out again under the same number.
- 32-bit wrap-around of reference counts and page numbers; the hash function and the addresses of kernel reads and writes are taken modulo 2 to the 32.
