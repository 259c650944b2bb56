# Verified models of the page tables, allocators, device tree library and cross-CPU protocols

A Dafny 4.11 model of the parts of this repository whose correctness rests on more than one function: a
hypervisor's extended page tables, the host and IOMMU page tables, the page, virtual-memory and heap allocators
beneath them, the flattened device tree library, the two protocols by which one CPU runs a function on another, the
split virtqueue, and the batching of inter-processor interrupts on GICv3. `dafny verify dfyconfig.toml` checks
everything.

## How the model is built

* `PhysMem`, `PageAllocator`, `Malloc`, `Vmalloc`: physical memory is a map from frame numbers to pages of 512 words.
  A word of 64 bits is kept as twelve low bits, a 40-bit frame number and twelve high bits. The free list lives in
  the first word of each free page, as in the code; a ghost sequence says which pages it links, and in which order.
* `Radix` gives the hardware walk over a four-level tree for any entry format (section 28.2.2 of the Intel SDM,
  volume 3C, and section 4.5 of volume 3A), the well-formedness of a tree, and what a change of one entry or the
  insertion of one table does to every walk. `Ept`, `HostPaging` and `Iommu` are its formats. `TableInstall` is the
  way down that `install_pte` and `vtd_install_pte` share; `Ept` has its own, which splits large pages.
* `FdtFormat` (words, tokens, streams of tokens; sections 5.4 and 5.5 of the Devicetree Specification v0.3), `FdtTree`
  (trees and what tokens mean), `FdtBlob` (buffer and header), `FdtWriter` (`fdt_sw.c`), `FdtReader` and `FdtPath`
  (`fdt.c`, `fdt_ro.c`), `FdtEdit` and `FdtPack` (`fdt_rw.c`), `FdtNop` (`fdt_wip.c`), `FdtRefine` and `FdtTreeEdit`
  (edits as operations on the tree and the reserve map), `FdtRoundTrip` (write then read). The methods move bytes in one buffer; their contracts say which tokens the structure block holds and
  which items (node begins, properties by name and value, node ends) those mean. A nop means nothing, and what is in
  the padding does not matter.
* `IpiCalls` and `ArmCalls` are state machines: each access to shared memory is a step, and the steps of all CPUs
  interleave in any order under sequential consistency. A run is any sequence of steps from boot.
* `Virtqueue` has the rings and the descriptor table as arrays, with 16-bit indices that wrap around; the device is a
  pair of methods. `GicSgi` has the nested loop of `gicv3_ipi_send_mask` and the layout of ICC_SGI1R_EL1.

## What the code does that its callers may not expect

* Splitting a large EPT page keeps bits 6 to 3 in the entry that points to the new table, where they are reserved.
  The translation survives only if they are zero (`Ept.SplitPreservesIff`).
* Splitting a 2 MiB host page moves its PAT bit to where a 4 KiB entry has its frame number. The split is exact for
  1 GiB pages and for pages without that bit (`HostPaging.SplitPreservesIff`, `HostPaging.Force4kPage`).
* `virt_to_pte_phys` is the translated address only for addresses in the part of a large page that the frame number
  of its entry names, so for all 4 KiB pages (`HostPaging.PtePhysExactIff`).
* `alloc_pages` does not look again at the page that breaks a run, and can miss a run that starts there
  (`PageAllocator.SearchCanMissARun`; `PageAllocator.SearchSucceedsIff` says when it does not).
* `free_pages` of size zero empties the free list (`PageAllocator.FreePages`).
* `page_memalign` takes a power of two of pages and `page_free` gives back the pages asked for: the others are lost
  (`Malloc.ReturnConservesIff`). `memalign` returns memory outside its block when the size computation overflows, and
  only then (`Malloc.PlacementFitsIff`).
* On Arm, two CPUs that call the same CPU can lose a wake-up: `on_cpu` then returns although the function has not been
  run, and it never will be (`ArmCalls.OnCpuCanReturnTooEarly`, `ArmCalls.OnCpuReturnsIff`,
  `ArmCalls.MissedForever`). With one caller for a CPU this cannot happen (`ArmCalls.SoleCallReturns`).
* `fdt_path_offset` of a path from `fdt_get_path` leads back to the node exactly if no earlier sibling on the way has
  the same name, or the same name with a unit address added (`FdtPath.ThereAndBack`).

## Model

| member | source | states |
|---|---|---|
| `PageAllocator.FreePages` | lib/alloc_page.c:24-54 | the pages of the region, in ascending order, are in front of the old free list; size zero leaves an empty list; no other page changes |
| `PageAllocator.AllocPage` | lib/alloc_page.c:56-69 | takes the first free page, or none from an empty list, and keeps the rest in order |
| `PageAllocator.FreePage` | lib/alloc_page.c:133-139 | puts one page in front |
| `PageAllocator.Search` | lib/alloc_page.c:75-127 | the scan of the list finds a naturally aligned run of consecutive pages, its predecessor and its successor, exactly when the run-length recurrence reaches n |
| `PageAllocator.AllocPages` | lib/alloc_page.c:75-130 | on success the block is an aligned run of 2^order consecutive pages of the old list, cut out with the rest in order; on failure nothing changes |
| `PageAllocator.SearchSucceedsIff` | lib/alloc_page.c:94-127 | the scan succeeds if and only if some aligned run begins at a page that is not skipped: that does not end a shorter consecutive stretch begun at an aligned page that is not skipped itself |
| `PageAllocator.ContiguousSearchIsComplete` | lib/alloc_page.c:75-130 | on the list one call of free_pages leaves, the scan finds a block whenever there is one |
| `PageAllocator.SearchCanMissARun` | lib/alloc_page.c:94-127 | a list that has an aligned run and on which the scan fails |
| `PhysMem.ThreadedCut` | lib/alloc_page.c:120-126 | after one link is rewritten the list threads exactly the pages that are left, in order |
| `Malloc.PlacementFitsIff` | lib/alloc.c:43-67 | memory from memalign is aligned, and lies in the backend block together with its metadata if and only if the size computation does not overflow |
| `Malloc.Heap.Memalign` | lib/alloc.c:43-67 | returns the placed address and leaves the base and size of the block in the two words before it; the block has no more than the room that size, alignment, metadata and rounding need |
| `Malloc.Heap.Free` | lib/alloc.c:21-41 | hands the backend the base and size that memalign was given for this pointer |
| `Malloc.PageMemalign` | lib/alloc_page.c:141-152 | a block out of the free list, of a power of two of pages that holds the size and of which half would not |
| `Malloc.MemalignPages` | lib/alloc.c:43-67 | with the page allocator behind it: the aligned memory and its metadata lie inside the 2^order pages cut out of the free list, or the list is unchanged |
| `Malloc.FreeToPages` | lib/alloc.c:32-41 | the pages of the block asked for go back in front of the free list |
| `Malloc.ReturnConservesIff` | lib/alloc_page.c:141-157 | taking a block and freeing it restores the set of free pages if and only if the number of pages asked for is a power of two |
| `Malloc.PowerOfTwoIff` | lib/alloc_page.c:147-149 | the test on the highest set bit recognises the powers of two |
| `Radix.WalkElsewhere` | lib/x86/vm.c:6-32 | writing one entry of a well-formed tree leaves the walk of every address outside its slot as it was |
| `Radix.TranslateInSlot` | lib/x86/vm.c:6-32 | inside the slot, the walk ends at that entry |
| `Radix.SetEntry` | lib/x86/vm.c:6-32 | replacing a leaf keeps the tree well-formed and changes exactly the translations of its slot |
| `Radix.Graft` | x86/ept.c:22-54 | putting a new table in place of an entry that means the same changes no translation, and makes the walk reach the new table |
| `TableInstall.StepDown` | lib/x86/vm.c:14-27 | one level down: an absent entry is replaced by an empty table from a free page, no translation changes |
| `TableInstall.WalkDown` | lib/x86/vm.c:6-28 | the loop ends at the table of the target level for the address, every translation as before |
| `TableInstall.Install` | lib/x86/vm.c:6-32 | the installed entry decides its own slot; every other translation, with its rights, is as before; fresh tables are free pages, used once each |
| `Ept.SplitLargeEptEntry` | x86/ept.c:22-54 | the new table has the 512 smaller entries and the old entry points to it; the table is the first free page |
| `Ept.SplitPreservesIff` | x86/ept.c:22-54 | for every address and all rights the split means what the large page meant, if and only if memory-type bits 6 to 3 are clear |
| `Ept.StepDown` | x86/ept.c:68-88 | one level down by creating a table, splitting a large page or following a pointer: no translation changes |
| `Ept.WalkDown` | x86/ept.c:63-89 | the loop reaches the table at the target level; every translation is as before, whatever was split |
| `Ept.InstallEptEntry` | x86/ept.c:63-94 | the entry decides the 4K, 2M or 1G of its address; every other guest address keeps its host address and rights, even when large pages are split on the way |
| `Ept.PathGrafted` | x86/ept.c:63-94 | a path stays passable for another address when a table is put into the tree |
| `EptRange.MapEntryMeaning` | x86/ept.c:97-123 | a 1:1 entry translates the addresses of its page to themselves if and only if the page is naturally aligned |
| `EptRange.MapPages` | x86/ept.c:139-154 | one loop of setup_ept_range maps the whole pages of its size 1:1 and stops at the first that does not fit |
| `EptRange.IdentityStep` | x86/ept.c:97-154 | one more page installed extends the identity map and keeps every other address as it was |
| `EptRange.SetupEptRange` | x86/ept.c:132-154 | every whole page of the range is mapped 1:1 with the permission, everything else as before: a result that does not depend on which large page sizes are allowed; three free pages for each 4 KiB are enough, and no more are taken |
| `EptRange.SetupEpt` | x86/ept.c:210-231 | the new EPT maps all of memory, and at least 4 GiB, 1:1 with all rights, and nothing else |
| `HostPaging.InstallPte` | lib/x86/vm.c:6-32 | the entry decides its slot, all else is kept, and the returned table holds the entry |
| `HostPaging.FindPteLevel` | lib/x86/vm.c:38-65 | the last entry on the walk of the address at or above the wanted level |
| `HostPaging.VirtToPtePhys` | lib/x86/vm.c:176-179 | the result is the translated address if and only if the address lies in the 4 KiB of the page that the frame number names |
| `HostPaging.PtePhysExactIff` | lib/x86/vm.c:176-179 | the same for one entry, for all addresses and rights |
| `HostPaging.SplitLargePage` | lib/x86/vm.c:186-233 | the table of 512 smaller entries, and the pointer to it |
| `HostPaging.SplitPreservesIff` | lib/x86/vm.c:186-233 | the split means what the large page meant if and only if the page has 1 GiB or its PAT bit is clear |
| `HostPaging.Force4kPage` | lib/x86/vm.c:243-262 | the address ends at a level-1 entry; every translation and right stays, if and only if the address was not mapped by a large page with its PAT bit set; for a mapped address two free pages are enough |
| `Vmalloc.PagesArePartitioned` | lib/vmalloc.c:57-81 | every page is exactly one of free, page table, backing of one block, or handed out |
| `Vmalloc.VirtualMemory.AllocDirect` | lib/alloc_page.c:56-69 | a page handed out is accounted for as such |
| `Vmalloc.VirtualMemory.FreeDirect` | lib/alloc_page.c:133-139 | and is free again afterwards |
| `Vmalloc.VirtualMemory.AllocDirectPages` | lib/alloc_page.c:75-130 | an aligned block handed out is accounted for page by page; the accounts hold whether or not there is one |
| `Vmalloc.VirtualMemory.FreeDirectPages` | lib/alloc_page.c:24-54 | consecutive pages handed out, from one block or several, are free again afterwards |
| `Vmalloc.VirtualMemory.AllocVpages` | lib/vmalloc.c:21-27 | reserves addresses below all earlier blocks, with the 64-bit wrap-around of the top |
| `Vmalloc.VirtualMemory.VmMemalign` | lib/vmalloc.c:57-72 | a new block of as many pages as hold the size, each backed by its own page off the free list and mapped to it with all the rights that the tables above let through; all other blocks keep pages and mapping; four free pages for each page are enough |
| `Vmalloc.VirtualMemory.VmFree` | lib/vmalloc.c:74-81 | exactly the backing pages of the block, found through the page table, go back to the free list |
| `Vmalloc.AccountReleased` | lib/vmalloc.c:74-81 | the accounts still hold when a block gives back its pages |
| `Vmalloc.LowAfter` | lib/vmalloc.c:21-27 | lowering the wrapped 64-bit top lowers the canonical part of the address by the same amount |
| `Iommu.RootTableSound` | lib/x86/intel-iommu.c:124-132 | the cleared root table satisfies the invariant of all later steps and translates nothing |
| `Iommu.EnsureContextTable` | lib/x86/intel-iommu.c:193-205 | a context table for the bus exists afterwards; no source id translates differently |
| `Iommu.EnsureContext` | lib/x86/intel-iommu.c:207-226 | a context entry with its own second-level table exists afterwards; no source id translates differently |
| `Iommu.OwnSid` | lib/x86/intel-iommu.c:145-169 | a page installed for a source id is translated for it, its other addresses as before |
| `Iommu.OtherSid` | lib/x86/intel-iommu.c:145-169 | and changes no table that another source id uses |
| `Iommu.InstallPage` | lib/x86/intel-iommu.c:145-169 | one page mapped for one source id, all tables of distinct ids still disjoint |
| `Iommu.VtdMapRange` | lib/x86/intel-iommu.c:179-237 | every page of the range translates to its physical page for the source id; no other address of it, and no other id, changes; two free pages, and two more for each page, are enough |
| `Iommu.DomainsDiffer` | lib/x86/intel-iommu.c:207-222 | the context entry of a source id carries that id as its domain: no two ids share one |
| `IpiCalls.StepKeeps` | lib/x86/smp.c:22-108 | every step of every caller and handler keeps the invariant of the protocol |
| `IpiCalls.ActiveCounts` | lib/x86/smp.c:22-113 | in every state of every run active_cpus is one more than the calls posted and not retired |
| `IpiCalls.RunsAreAsPosted` | lib/x86/smp.c:22-97 | each function run was posted, with this argument and for this CPU, and no call is run twice |
| `IpiCalls.OutstandingCanMove` | lib/x86/smp.c:22-87 | a posted call that is not retired can be moved on at once, by its sender, the interrupt or the handler: none is lost |
| `IpiCalls.OnCpuReturns` | lib/x86/smp.c:68-97 | when the lock is about to be released, a call that waits has been run and retired, and the target of one that does not wait has its own copy of the message |
| `IpiCalls.OnCpusReturns` | lib/x86/smp.c:99-108 | when on_cpus returns no call of any caller is outstanding, and for every CPU a call made by this very loop has been run there as posted |
| `IpiCalls.CallReturns` | lib/x86/smp.c:68-97 | from the step that asks for a call to the caller being out of it again: a new call was made, and it is the one asked for; with wait, or on the own CPU, that function has been run there with that argument, else it has been run or is on its way |
| `IpiCalls.OnCpusRanEverywhere` | lib/x86/smp.c:99-108 | from its first to its last step, on_cpus has had the function it was given run on every CPU with the argument it was given, by new calls |
| `IpiCalls.RunsWereAskedFor` | lib/x86/smp.c:22-108 | nothing is run that no caller asked for |
| `ArmCalls.StepKeeps` | lib/arm/smp.c:119-211 | every step of every caller and idling CPU keeps the invariant |
| `ArmCalls.NeverCallsNull` | lib/arm/smp.c:133-153 | in every state of every run, a CPU about to call has read a function |
| `ArmCalls.StartedOnce` | lib/arm/smp.c:61-73 | no CPU is started twice |
| `ArmCalls.RunsAreAsPosted` | lib/arm/smp.c:133-182 | each function run was stored, with this argument and for this CPU, and none is run twice |
| `ArmCalls.NothingOverwritten` | lib/arm/smp.c:170-182 | a call is stored only when no stored call for that CPU is still to be run |
| `ArmCalls.OnCpuReturnsIff` | lib/arm/smp.c:119-188 | when on_cpu returns the function has been run if and only if its clearing of the idle bit found the bit set |
| `ArmCalls.SoleCallerReturnsAfterRun` | lib/arm/smp.c:155-188 | where one context makes all calls for a CPU, on_cpu returns only after the function was run there |
| `ArmCalls.OnCpusReturns` | lib/arm/smp.c:190-211 | when on_cpus returns, this very loop has made a call for every other CPU, run as posted if and only if it was not missed, and the caller has run the function itself |
| `ArmCalls.CallReturns` | lib/arm/smp.c:155-188 | from the step that asks for a call to the caller being out of it again: a new call was made, and it is the one asked for; after on_cpu it has been run if and only if it was not missed |
| `ArmCalls.SoleCallReturns` | lib/arm/smp.c:155-188 | with one caller for the CPU, on_cpu comes back only after the function it was given has been run there with the argument it was given |
| `ArmCalls.OwnCallRuns` | lib/arm/smp.c:157-160 | a call for the own CPU is run at once, as asked for |
| `ArmCalls.OnCpusRanEverywhere` | lib/arm/smp.c:190-211 | from its first to its last step, on_cpus has called every other CPU with the function and argument it was given, each call run unless missed, and has run the function itself |
| `ArmCalls.RunsWereAskedFor` | lib/arm/smp.c:133-211 | nothing is run that no caller asked for |
| `ArmCalls.MissedForever` | lib/arm/smp.c:133-182 | a call whose wake-up was missed is not run in any later state, and its CPU serves no other |
| `ArmCalls.OnCpuCanReturnTooEarly` | lib/arm/smp.c:119-188 | a run in which on_cpu returns although its function has not been run |
| `Virtqueue.SameSlot` | lib/virtio.c:74-76 | a 16-bit index and the count it stands for choose the same slot of the ring |
| `Virtqueue.RingPush` | lib/virtio.c:74-78 | writing behind the last item of a ring that is not full overwrites none |
| `Virtqueue.Conservation` | lib/virtio.c:50-125 | the free descriptors and those in flight add up to the ring size, and those in flight are the buffers added and not fetched |
| `Virtqueue.VirtQueue.constructor` | lib/virtio.c:23-48 | all descriptors are free and chained in order |
| `Virtqueue.VirtQueue.AddOutbuf` | lib/virtio.c:50-81 | the first free descriptor carries the buffer and is offered next; fails, changing nothing, exactly when none is free |
| `Virtqueue.VirtQueue.DetachBuf` | lib/virtio.c:90-104 | a chain of descriptors of any length goes back to the front of the free chain |
| `Virtqueue.VirtQueue.GetBuf` | lib/virtio.c:106-125 | returns the buffer of the oldest used element, which was not returned before, and frees its descriptor |
| `Virtqueue.RunSound` | lib/virtio.c:23-125 | in every state of every run of driver and device each descriptor is in one place and each buffer is outstanding or returned |
| `Virtqueue.EachReturnedOnce` | lib/virtio.c:106-125 | no two fetches of a run return the same buffer |
| `GicSgi.RegisterDecodes` | lib/arm/gic-v3.c:128-135 | the value written decodes to the cluster, the interrupt and exactly the target list; routing mode, range selector and reserved bits are zero |
| `GicSgi.CpumaskNext` | lib/arm/asm/cpumask.h:106-111 | the next member of the mask, or the number of CPUs |
| `GicSgi.SendMask` | lib/arm/gic-v3.c:72-140 | the loops end; with distinct MPIDRs each CPU of the mask with Aff0 below 16 is addressed by exactly one of the writes, no other CPU by any; each write carries the interrupt, is routed by its target list, and leaves the reserved bits zero |
| `GicSgi.EachReachedOnce` | lib/arm/gic-v3.c:81-136 | writes for consecutive parts of the mask, each of one cluster, address each wanted CPU once and no other |
| `FdtFormat.NextTag` | lib/libfdt/fdt.c:93-141 | the tag, the aligned offset behind the token, or the error, for every block and offset |
| `FdtFormat.NextTagOfToken` | lib/libfdt/fdt.c:93-141 | at the beginning of a token, its tag and the offset of the next token |
| `FdtFormat.StreamReplace` | lib/libfdt/fdt_rw.c:97-135 | replacing the bytes of some tokens by those of others replaces the tokens |
| `FdtTree.StreamUnique` | lib/libfdt/fdt.c:93-141 | bytes are a stream of tokens in one way only |
| `FdtTree.FlatUnique` | lib/libfdt/fdt.c:161-199 | a tree is determined by its items in a line |
| `FdtTree.TreeUnique` | lib/libfdt/fdt.c:93-141 | a structure block and a strings block hold at most one tree |
| `FdtBlob.FindString` | lib/libfdt/fdt.c:229-239 | the first place where the string stands with its terminator, or none |
| `FdtWriter.Create` | lib/libfdt/fdt_sw.c:88-108 | the whole header; an unfinished blob without entries or items, if a block fits behind the header |
| `FdtWriter.AddReserve` | lib/libfdt/fdt_sw.c:110-131 | one more reserve entry, read from its bytes as the two 64-bit numbers given; refused exactly if there is structure already, fails exactly if it does not fit, and then changes nothing |
| `FdtWriter.FinishReserveMap` | lib/libfdt/fdt_sw.c:133-136 | the entry that ends the map, under the same conditions |
| `FdtWriter.BeginNode` | lib/libfdt/fdt_sw.c:138-152 | one more node begin; fails exactly when there is no room |
| `FdtWriter.EndNode` | lib/libfdt/fdt_sw.c:154-166 | one more node end; fails exactly when there is no room |
| `FdtWriter.FindAddString` | lib/libfdt/fdt_sw.c:168-189 | the name's distance from the end of the buffer; a new string moves no name relative to the end; a string that is there already takes no room |
| `FdtWriter.WriteProperty` | lib/libfdt/fdt_sw.c:191-211 | one more property, found again under its name; fails exactly when there is no room, and then all items are as before |
| `FdtWriter.CorrectOffsets` | lib/libfdt/fdt_sw.c:234-248 | the loop turns every distance from the end into an offset from the start, in place, and changes nothing else |
| `FdtWriter.FinishBlob` | lib/libfdt/fdt_sw.c:213-256 | the finished blob has no gaps and holds exactly the reserve entries and items that were written |
| `FdtRoundTrip.EmitNode` | lib/libfdt/fdt_sw.c:138-211 | begin, properties, subnodes and end of a node, by the calls of the writer, add exactly the items of that node, unless the room its names and values need is missing |
| `FdtRoundTrip.ReadItems` | lib/libfdt/fdt.c:93-141 | the walk over the tags from offset 0, with names from the strings block, finds the items that tokens and strings mean |
| `FdtRoundTrip.WriteThenRead` | lib/libfdt/fdt_sw.c:73-256 | write then read: for every tree and reserve map, what the walk over the tags of the finished blob finds is that tree and no other, the 64-bit numbers in its map are the entries written, and the header check accepts it; an error only if the buffer is smaller than a bound computed from the tree |
| `FdtReader.NextNode` | lib/libfdt/fdt.c:161-199 | stops at the next node, behind the end of the node where the depth would be negative, or at the end; with the depth there |
| `FdtReader.ScanStops` | lib/libfdt/fdt.c:161-199 | from inside a node, the scan stops at the next node or at the end tag of this one |
| `FdtReader.FirstSubnode` | lib/libfdt/fdt.c:201-210 | the first subnode, or not found exactly if there is none |
| `FdtReader.NextSubnode` | lib/libfdt/fdt.c:212-227 | from subnode i the subnode i + 1, or not found exactly after the last, whatever is nested inside |
| `FdtReader.FindNode` | lib/libfdt/fdt.c:201-227 | the items of a tree are found in the stream at places of the same shape, subnode by subnode |
| `FdtReader.NodeEndOffset` | lib/libfdt/fdt_wip.c:97-105 | the offset behind the end tag of the node |
| `FdtReader.Supernode` | lib/libfdt/fdt_ro.c:409-443 | the depth of the node, and the last node before it at the wanted depth |
| `FdtReader.ParentOffset` | lib/libfdt/fdt_ro.c:456-464 | the parent of a subnode is the node it is a subnode of |
| `FdtReader.NextProp` | lib/libfdt/fdt_ro.c:108-130 | the next property with nothing but nops before it, or the error for what is there instead |
| `FdtReader.GetProperty` | lib/libfdt/fdt_ro.c:260-290 | the first property of the node with the name, or an error exactly if none has it |
| `FdtReader.SubnodeOffset` | lib/libfdt/fdt_ro.c:132-149 | the first subnode that the name fits, with or without unit address, or not found exactly if it fits none |
| `FdtReader.NodeNameFits` | lib/libfdt/fdt_ro.c:58-76 | the comparison of bytes decides whether a name fits a node |
| `FdtReader.GetName` | lib/libfdt/fdt_ro.c:201-219 | the name of the node and its length |
| `FdtPath.GetPath` | lib/libfdt/fdt_ro.c:357-407 | the names on the way to the node with slashes before them, if and only if the buffer holds them and a terminator |
| `FdtPath.PathOffset` | lib/libfdt/fdt_ro.c:157-199 | the node that the names between the slashes lead to, each by the first subnode it fits, or not found exactly if they lead nowhere |
| `FdtPath.ThereAndBack` | lib/libfdt/fdt_ro.c:157-407 | fdt_get_path, then fdt_path_offset: the offset comes back if and only if no earlier sibling fits a name on the way; else another node or not found |
| `FdtPath.LeadsBackIff` | lib/libfdt/fdt_ro.c:132-199 | names of a way lead to its end if and only if none is shadowed |
| `FdtEdit.Splice` | lib/libfdt/fdt_rw.c:97-108 | the bytes behind are moved; without room or out of range nothing changes |
| `FdtEdit.SpliceStruct` | lib/libfdt/fdt_rw.c:123-135 | the same, and the header follows |
| `FdtEdit.TokensReplaced` | lib/libfdt/fdt_rw.c:97-135 | a splice and a write into the room replace the tokens in the blob and the items they mean; all others stay |
| `FdtEdit.FindAddString` | lib/libfdt/fdt_rw.c:150-170 | the name's offset in the strings block; tokens, items and all before the structure block are as before |
| `FdtEdit.ResizeProperty` | lib/libfdt/fdt_rw.c:205-221 | room for the new value of the first property with the name; no space exactly if it does not fit |
| `FdtEdit.AddProperty` | lib/libfdt/fdt_rw.c:223-249 | room for a new first property of the node under its name; without room the items are as before; the reserve map is kept |
| `FdtEdit.SetProp` | lib/libfdt/fdt_rw.c:274-290 | the first property with the name gets the value, or the node a new first property; no space exactly if the blob would grow over its total size, and then tokens and items are as they were; the reserve map is kept |
| `FdtEdit.AppendProp` | lib/libfdt/fdt_rw.c:292-317 | the value of the property found is continued, or a new one added; no space exactly if the blob would grow over its total size, and then tokens and items are as they were; the reserve map is kept |
| `FdtEdit.DelProp` | lib/libfdt/fdt_rw.c:319-332 | the first property with the name is gone, and nothing else, the reserve map being kept; it never lacks space |
| `FdtEdit.SetName` | lib/libfdt/fdt_rw.c:251-272 | the node has the new name, the reserve map is kept; fails exactly when it does not fit |
| `FdtEdit.AddSubnode` | lib/libfdt/fdt_rw.c:334-373 | an empty node behind the properties of the parent, the reserve map being kept; exists exactly if the name fits a subnode |
| `FdtEdit.DelNode` | lib/libfdt/fdt_rw.c:380-392 | the tokens of the node are gone, and nothing else, the reserve map being kept |
| `FdtRefine.SetPropRefines` | lib/libfdt/fdt_rw.c:274-317 | set and append are the matching change of one node's properties in the tree |
| `FdtRefine.DelPropRefines` | lib/libfdt/fdt_rw.c:319-332 | deletion removes the first property of that name from one node of the tree |
| `FdtRefine.SetNameRefines` | lib/libfdt/fdt_rw.c:251-272 | renames one node of the tree |
| `FdtRefine.AddSubnodeRefines` | lib/libfdt/fdt_rw.c:334-373 | gives one node of the tree a new first subnode |
| `FdtRefine.DelNodeRefines` | lib/libfdt/fdt_rw.c:380-392 | takes one subnode out of its parent in the tree |
| `FdtRefine.ReplacedItems` | lib/libfdt/fdt_rw.c:97-135 | replacing a node of a tree changes the items of that node and no other |
| `FdtNop.NopProperty` | lib/libfdt/fdt_wip.c:83-95 | leaves the items that deleting the property leaves; no byte outside it changes |
| `FdtNop.NopNode` | lib/libfdt/fdt_wip.c:107-118 | leaves the items that deleting the node leaves; no byte outside it changes |
| `FdtNop.OffsetsStay` | lib/libfdt/fdt_wip.c:75-118 | every other token keeps its offset |
| `FdtPack.Pack` | lib/libfdt/fdt_rw.c:480-492 | the tree and the reserve map are the same, and the total size is the size of the data |
| `FdtTreeEdit.FinishedIsTreeBlob` | lib/libfdt/fdt_sw.c:213-256 | what the writer finishes holds its tree and its reservations and can be edited and packed |
| `FdtTreeEdit.GetReserve` | lib/libfdt/fdt_ro.c:91-97 | entry n of the reservations that the blob holds |
| `FdtTreeEdit.CountReserves` | lib/libfdt/fdt_ro.c:99-106 | the number of reservations, without the entry that ends the map |
| `FdtTreeEdit.SetProperty` | lib/libfdt/fdt_rw.c:274-290 | fdt_setprop on a blob that holds a tree: it holds the tree with that property set in that node, or, exactly if that needs more than the total size, the same tree; the reservations stay |
| `FdtTreeEdit.AppendProperty` | lib/libfdt/fdt_rw.c:292-317 | the same for fdt_appendprop, the new value being the old one continued |
| `FdtTreeEdit.DeleteProperty` | lib/libfdt/fdt_rw.c:319-332 | the same for fdt_delprop; not found exactly if the node has no such property |
| `FdtTreeEdit.NopOutProperty` | lib/libfdt/fdt_wip.c:83-95 | fdt_nop_property leaves the same tree as fdt_delprop |
| `FdtTreeEdit.Rename` | lib/libfdt/fdt_rw.c:251-272 | fdt_set_name renames that node of the tree, or fails exactly if there is no space |
| `FdtTreeEdit.AddNode` | lib/libfdt/fdt_rw.c:334-373 | fdt_add_subnode gives the node an empty first subnode at the offset returned; exists exactly if some subnode fits the name, no space exactly if none does and the node does not fit |
| `FdtTreeEdit.DeleteNode` | lib/libfdt/fdt_rw.c:380-392 | fdt_del_node takes the subnode out of the tree |
| `FdtTreeEdit.NopOutNode` | lib/libfdt/fdt_wip.c:107-118 | fdt_nop_node leaves the same tree as fdt_del_node |
| `FdtTreeEdit.PackTree` | lib/libfdt/fdt_rw.c:480-492 | fdt_pack keeps the tree and the reservations and leaves no free space |
| `FdtTreeEdit.TokenHasPath` | lib/libfdt/fdt.c:161-199 | every node begin in the stream is that of a node of the tree, found by the number of items before it |

## Left out

- Allocation failure: where the code asserts that a page is there, or does not check, methods return `ok == false` and say only that the free list has run out.
- TLB and cache flushes, memory barriers, spinlock code, `wfe`/`sev`: memory is sequentially consistent and locks are atomic.
- EPT violations by address width beyond 52 bits, accessed and dirty flags, mode-based execute control, and the VMCS fields that `setup_ept` writes.
- Ept.InstallEptEntry: asks that the entries on the way to the address are not misconfigured and have no memory-type bits, which is what this file installs; `Ept.SplitPreservesIff` says what happens otherwise.
- EptRange.SetupEptRange: asks for a start aligned for the largest page used; `EptRange.MapEntryMeaning` says what a misaligned one does.
- HostPaging.FindPteLevel: asks that the entry of the top table does not have the page-size bit, which is reserved there: the hardware faults where the code goes on.
- HostPaging.InstallPte: asks that no large page lies above the target level, since `install_pte` does not split; 32-bit paging is not modelled.
- `install_pages`, `setup_mmu_range`, `setup_mmu`, `vmap`: loops over `install_pte` without state of their own.
- Malloc.Heap.Memalign: the backend's base address is a parameter (`Malloc.MemalignPages` has the page allocator there), and the words that hold the metadata are a map beside the pages; `calloc` and `malloc` are left out. The mask by which the code rounds down is division here, which is the same for the powers of two it is used with.
- Vmalloc.VirtualMemory.AllocVpages: asks that the addresses stay above the rest of the address space, which the code does not check.
- Iommu.VtdMapRange: asks for whole pages below 2^39, as the three-level tables need; interrupt remapping and MSI are left out.
- IpiCalls: the interrupt controller is one pending interrupt; the handler runs with interrupts disabled.
- ArmCalls: the `waiters` masks and the deadlock check that reads them, stacks of started CPUs, and the assertion about CPU 0 are left out; more interleavings are allowed than with them.
- Virtqueue.VirtQueue.GetBuf: asks that a used element is pending, since the code does not compare the indices; the layout by `vring_init`, notification and memory barriers are left out.
- GicSgi.SendMask: an MPIDR is its four affinity bytes; the message for an Aff0 of 16 or more is left out.
- The header of a device tree blob is a record of numbers, not bytes; versions before 17, malformed blobs, and property lengths that wrap around 32 bits are left out.
- FdtWriter.BeginNode: not for a buffer of 40 to 47 bytes, where the blocks begin behind its end; no reserve entry fits there.
- FdtWriter.AddReserve: asks that no property has been tried before the first node, since the code does not look at the strings.
- FdtTreeEdit.DeleteNode: is for nodes other than the root.
- FdtReader.Supernode: is for offsets of nodes; the errors for other offsets are left out. So is `fdt_next_node` from a negative offset or without a depth counter.
- FdtPath.PathOffset: is for paths that begin with a slash; aliases are left out.
- FdtEdit.AppendProp: asks that the lengths add up below 2^31.
- `fdt_open_into`, edits of the reserve map, `fdt_setprop_inplace`, and lookups by phandle, compatible string or property value: no new proof idea beyond those above.
- VMX, interrupt controllers other than the SGI register, serial, PCI, ACPI, firmware configuration, ELF and printing.
