# A model of the Bit Bandits kernel, with proofs

This project models the parts of the Bit Bandits teaching kernel that keep
state between calls, and proves what they keep: the heap manager, the set-up of
virtual memory, the process queues with the commands that move processes
between them, the IDLE/EXIT dispatcher, and three smaller pieces that work in
place on buffers (the line editor of the serial driver, `strtok`, and
`itoa`/`atoi`). `dafny verify dfyconfig.toml` checks everything.

## How it is built

Code that changes things step by step is imperative Dafny. Each of those
methods is proved equal to a function on values, and what callers rely on is
proved about the functions, over all inputs, all runs or all reachable states.

* **Heap** (`kernel/library.c`). `HeapManagement.HeapManager` does the pointer
  surgery on raw memory: a map from addresses to memory control blocks, because
  the code makes block headers at computed addresses. Its invariant `Valid`
  says that `next`/`prev` thread all blocks in address order, that
  `rel_next`/`rel_prev` thread the free and the allocated blocks in address
  order with NULL at all ends, and that no two neighbours are free; `ListsAgree`
  spells this out. `HeapSpec` says what the calls do to the sequence of blocks,
  `HeapLayout` gives the blocks afterwards one by one, and `HeapRuns` says what
  holds of every run.
* **Virtual memory** (`kernel/core-c.c`). `VirtualMemory.AddressSpace` has the
  frame bitmap, the page tables and the two bump allocators. A panic is a
  result `ok == false`. Fresh physical memory reads as zero, as on the machine
  the kernel boots on. `PhysicalMemory` walks directory and tables as the
  processor does, and composes `vm_init` with the heap.
* **Processes** (`kernel/pcb.c`, `user/user_pcb.c`, `kernel/sys_call.c`).
  `PcbQueues` has PCBs with their links, and the queues; `Kernel.ProcessTable`
  the four queues, the commands, the current process and `sys_call`.
  `Processes` and `Machines` are the same as values, `CommandOrder` says where
  each command leaves everybody, and `Requests` is `sys_req` around the system
  call: on values, since the interrupt in its middle may run others. A saved context is a
  value of all sixteen registers, where the code has a pointer into the
  process's stack; commands come already parsed, without their prompts.
* **Runs** (`kernel/kmain.c`, `user/core.c`, `user/comhand.c`).
  `Scheduling` lets comhand, idle and any number of r3 processes act in every
  order that their code allows; its `Possible` is the one place that says what
  a process may do. `Rotation` says who gets the processor when everybody only
  calls IDLE. `PcbMemory` puts PCBs on the heap, `Ownership` follows processes
  and heap together, and `Boot` goes from power-up to the state the runs start
  from.
* **Buffers** (`kernel/serial.c`, `lib/string.c`, `lib/stdlib.c`).
  `LineEditor` with `Keystrokes`, `Strings` with `Tokens`, and `Numbers`.

## What came out

* A block that becomes the new head of the allocated list keeps whatever
  `rel_prev` it has (kernel/library.c:114-120). This is harmless only because
  no two free blocks are neighbours (`BelowAllAllocated`).
* A merge adds the neighbour's size but not its header
  (kernel/library.c:229, 252), so each split loses 28 bytes for good:
  `free_memory` undoes `allocate_memory` if and only if the block was not split
  (`AllocateThenFree`), and even a `pcb_setup` that fails may lose a header
  (`FailedSetup`).
* `free_memory` looks at free blocks too. Its lists survive if and only if the
  pointer is not the start of the first free block with a block below it
  (`Free`). Given that pointer it answers 0, loses the head of the allocated
  list and ties the free list to itself (`BreakSmallHeap` for one such heap).
  Any other free block that the search reaches gives 0 and no change
  (`FreeIsExact`).
* `initialize_heap` takes its own header out of the size it is given
  (kernel/library.c:22), though include/mpx/library.h:35 says that the size
  does not include it.
* The alignment test of `kmalloc` looks at the high bits of the address, so an
  aligned address still moves up by a page.
* `vm_init` panics if and only if the kernel image ends at 0x3FBC000 or above.
* include/processes.h:43-44 promises that idle runs only if no other process is
  available. A process that calls IDLE is itself ready afterwards, so IDLE keeps
  the promise just if it dispatches another process, or if `kmain` makes the
  call and idle is alone (`IdlePromise`); comhand with only idle ready breaks it
  (`CallerPassedOver`), and so does anybody once a user process of priority 9
  waits behind idle (`IdlePromiseFails`). EXIT keeps it just if idle is alone or
  not first in line (`ExitPromise`).
* A process better than all others still runs only every second time
  (`BestRotation`), and from any state on, while everybody only calls IDLE, at
  most two classes ever run: one process, and those of the best priority it
  finds ready (`OnlyTheBestRun`).
* A process gets 1 back from `sys_req(IDLE)`, the number of its own request,
  since nobody stores an answer (`YieldAnswersItself`); only `kmain` gets 0.
* The queue number `disp_state + exe_state` is ambiguous for RUNNING, which is
  never assigned (`TagNamesStates`, `RunningIsAmbiguous`).
* When idle runs alone and calls IDLE, `kmain` resumes, idle's PCB is in no
  queue any more (`IdleFallback`), and its memory is never freed (`WhatIsLeft`).
* `atoi(itoa(n)) == n` for every int but the least, for which `itoa` writes
  `-(`.
* `serial_poll` leaves `tempIndex` unset until a key other than an arrow or an
  unknown escape sequence; the model takes it to be 0 until then.

## Model

| member | source | states |
|---|---|---|
| HeapManagement.HeapManager.Initialize | kernel/library.c:10-34 | one free block covers the arena, header excluded; a NULL from kmalloc changes nothing |
| HeapManagement.HeapManager.ListsAgree | kernel/library.c:37-278 | in every valid state each block is linked into the address-ordered full list and into exactly the relative list its flag names, with NULL at the ends, and a free block has no free successor |
| HeapManagement.HeapManager.ViewWellFormed | kernel/library.c:37-278 | the blocks that memory stands for are disjoint, ordered, inside the arena, and no two neighbours are free |
| HeapManagement.HeapManager.Allocate | kernel/library.c:37-156 | the pointer code keeps all list invariants and does to the blocks, and returns, exactly what first fit with splitting prescribes |
| HeapManagement.HeapManager.Free | kernel/library.c:163-278 | for every pointer: the memory is that of some heap afterwards if and only if the pointer is not the start of the first free block with a block below it; then all list invariants hold and blocks and answer are exactly those of release with coalescing; else the answer is 0 and every stored link is stated, the free list tied to itself among them |
| HeapManagement.BreakSmallHeap | kernel/library.c:163-278 | on a concrete heap, freeing the free block behind the only allocation answers 0 and leaves memory that is no heap |
| HeapManagement.NoHeap | kernel/library.c:172-223 | memory in which the first free block precedes itself is not that of any heap |
| HeapManagement.HeapManager.SplitBlock | kernel/library.c:47-83 | the header of the remainder and six link stores cut the block and put the remainder in its place on the free list |
| HeapManagement.HeapManager.ThreadAllocated | kernel/library.c:103-147 | the stores thread the block into the allocated list in address order, given that a new head has no predecessor |
| HeapManagement.HeapManager.ReleaseBlock | kernel/library.c:171-273 | for any block, free or not, but the first free one, unlinking, relinking and up to two merges amount to Release of that block; for the first free one, the links that are left |
| HeapManagement.BelowAllAllocated | kernel/library.c:114-120 | a block below every allocated block has no predecessor on the free list, which is why its rel_prev need not be reset |
| HeapManagement.SizeTestIsExact | kernel/library.c:47 | the 32-bit sum in the size test never wraps around for a block that fits |
| HeapSpec.CarveWellFormed | kernel/library.c:47-83 | splitting a free block or handing it out whole keeps order, disjointness and coalescing |
| HeapSpec.ReleaseWellFormed | kernel/library.c:171-270 | releasing a block and merging both ways keeps order, disjointness and coalescing |
| HeapRuns.FirstFitIsExact | kernel/library.c:40-156 | NULL if and only if every free block is too small; otherwise the lowest free block that fits, of final size in [n, n + 28], and no other allocation changes |
| HeapLayout.AllocateLayout | kernel/library.c:37-156 | all blocks afterwards: the first free block of n bytes or more is allocated, cut to n bytes with a free block behind it just if more than 28 bytes would be left; everything else stays |
| HeapSpec.MayFreeMeans | kernel/library.c:166-169 | that pointer is excluded if and only if the search, which starts at the first allocated block, would end on the first free one |
| HeapRuns.FreeIsExact | kernel/library.c:163-278 | for every other pointer: 0 if and only if the pointer is the start of a block that is allocated or has an allocated one below it, else -1; a live allocation of that start ends, and no other; without one nothing changes |
| HeapLayout.FreeLayout | kernel/library.c:163-278 | all blocks afterwards: the block found has become one free block with its free neighbours, which starts where the first of them did and has the sum of their sizes; everything else stays |
| HeapRuns.AllocateThenFree | kernel/library.c:37-278 | freeing what was just allocated restores the heap if and only if the block was not split; else one header is lost |
| HeapRuns.ByteHasOneOwner | kernel/library.c:47-82 | headers and payloads of all blocks are pairwise disjoint and inside the arena |
| HeapRuns.CarveTotal | kernel/library.c:47-83 | a split lowers the sum of sizes by one header; handing out a whole block does not change it |
| HeapRuns.ReleaseTotal | kernel/library.c:226-270 | free_memory never changes the sum of sizes, and drops one block for each merge |
| HeapRuns.RunsAreGood | kernel/library.c:37-278 | every legal run keeps the invariant, and heap_size = sizes + 28 (blocks + merges) = sizes + 28 (1 + splits) |
| HeapRuns.DrainRestoresOneBlock | kernel/library.c:163-274 | after any run, freeing all live allocations in any order is legal and leaves one free block at the base, short of one header for each split |
| VirtualMemory.AddressSpace.FindFree | kernel/core-c.c:384-394 | the least frame whose bit is clear, or -1 if all are set |
| VirtualMemory.AddressSpace.SetBit | kernel/core-c.c:397-403 | marks the frame of the address and no other |
| VirtualMemory.AddressSpace.Alloc | kernel/core-c.c:315-327 | hands out the old heap break and moves it; fails just if it passes the end |
| VirtualMemory.AddressSpace.Kmalloc | kernel/core-c.c:354-381 | both modes: the heap break with the physical address looked up, or physical memory with the code's alignment |
| VirtualMemory.AddressSpace.GetPage | kernel/core-c.c:332-352 | finds the entry, making a zeroed page table at the aligned allocation address if asked and needed |
| VirtualMemory.AddressSpace.NewFrame | kernel/core-c.c:409-426 | gives an unmapped page the first free frame, present, writeable and not for user mode, and marks just that frame; a page with a frame is left alone |
| VirtualMemory.AddressSpace.MapIdentity | kernel/core-c.c:439-444 | the loop whose bound moves ends, and has mapped page after page to the frame of its own number, up to the final bound |
| VirtualMemory.AddressSpace.MapHeap | kernel/core-c.c:446-450 | the sixteen heap pages get the sixteen frames behind |
| VirtualMemory.AddressSpace.VmInit | kernel/core-c.c:428-465 | panics if and only if the image reaches 0x3FBC000; else pages 1 to the final phys_alloc_addr + 0x10000 are mapped to themselves, the heap to fresh frames, all of them writeable and for the kernel only, and nothing else is mapped; the bitmap holds exactly the frames handed out; directory and tables are disjoint, aligned and below the allocation address, and each word of the directory is a table's address with its three flags |
| PhysicalMemory.BootSpace | kernel/core-c.c:428-465 | vm_init ends in a space for which the following holds |
| PhysicalMemory.WalkIs | kernel/core-c.c:332-465 | for every address, the walk of the processor through the words of the directory and the entries of the tables ends in the address itself below the bound, in the memory above the bound for the heap, and in a page fault elsewhere and on the first page; whatever is mapped is writeable, by the kernel only |
| PhysicalMemory.WalkIsInjective | kernel/core-c.c:428-465 | no two mapped virtual addresses share a byte of physical memory, and none leaves the 64 MiB |
| PhysicalMemory.TablesReachable | kernel/core-c.c:439-453 | directory and page tables are mapped to themselves, writeable; the first page faults |
| PhysicalMemory.HeapByteMapped | kernel/core-c.c:446-450 | every byte of the primitive heap is mapped, writeable, and lies above the kernel's own memory |
| PhysicalMemory.HeapBytesApart | kernel/library.c:47-82 | in every reachable heap, different bytes of blocks are different, writeable bytes of physical memory, none of them the kernel's own |
| Processes.TagNamesStates | include/mpx/pcb.h:10-31 | without RUNNING, disp_state + exe_state names the two states and hence the queue, 0 to 3 |
| Processes.RunningIsAmbiguous | include/mpx/pcb.h:18-31 | a running process would share its number with one that is not running |
| Processes.InsertSorted | kernel/pcb.c:92-147 | enqueueing keeps a ready queue in priority order |
| Processes.EnqueueIsFifo | kernel/pcb.c:92-147 | within each priority the newcomer is last and nobody else moves |
| Processes.SortedDetermined | kernel/pcb.c:92-147 | order and the per-priority queues determine the whole queue, so enqueue has no other correct result |
| Processes.ReadyIsByPriority | kernel/pcb.c:92-147 | on a ready queue the newcomer passes exactly those of worse priority |
| Processes.BlockedIsFifo | kernel/pcb.c:148-165 | on a blocked queue the newcomer is last and all others stay |
| PcbQueues.ProcessQueue.FindPlace | kernel/pcb.c:122-141 | the forward scan for priorities up to 4 and the backward scan for the others stop at the same node, behind all entries of the priority or better, and follow no NULL link |
| PcbQueues.ProcessQueue.EnqueueByPriority | kernel/pcb.c:92-147 | a detached PCB is linked in behind all entries of its priority or better; the links stay inverse |
| PcbQueues.ProcessQueue.Enqueue | kernel/pcb.c:68-168 | on the ready queues behind all of its priority or better and before all others; on the blocked queues at the tail, after everybody who was there |
| PcbQueues.ProcessQueue.SearchQueue | kernel/pcb.c:16-66 | the first PCB of the name, or NULL |
| PcbQueues.ProcessQueue.Dequeue | kernel/pcb.c:170-238 | takes the PCB out, wherever it is and whatever the order, leaving its links NULL; 1 and no change if nobody in the queue has the name |
| Kernel.ProcessTable.FindPcb | kernel/pcb.c:302-325 | a PCB of the name, such that no queue of a lower number and no earlier place holds one; none if and only if the name is empty or nobody has it |
| Kernel.ProcessTable.Insert | kernel/pcb.c:327-342 | the PCB joins the queue its states name, the other three do not change |
| Kernel.ProcessTable.Remove | kernel/pcb.c:344-364 | the PCB leaves the queue its states name, links NULL |
| Kernel.ProcessTable.BlockPcb | user/user_pcb.c:178-232 | queues and answer are those of Execute for block |
| Kernel.ProcessTable.UnblockPcb | user/user_pcb.c:240-286 | queues and answer are those of Execute for unblock |
| Kernel.ProcessTable.SuspendPcb | user/user_pcb.c:295-346 | queues and answer are those of Execute for suspend |
| Kernel.ProcessTable.ResumePcb | user/user_pcb.c:356-402 | queues and answer are those of Execute for resume |
| Kernel.ProcessTable.DeletePcb | user/user_pcb.c:124-169 | queues and answer are those of Execute for delete; the PCB is detached |
| Kernel.ProcessTable.SetPcbPriority | user/user_pcb.c:411-469 | the priority changes in the queue, which may break its order; taking the PCB out does not need the order and the new insertion restores it |
| Kernel.ProcessTable.Command | user/user_pcb.c:124-469 | every command keeps the partition into queues, the order of the ready queues and the current process |
| Machines.ExecuteIsExact | user/user_pcb.c:124-469 | a command succeeds if and only if the first process of the name may be acted on (never a system process if it deletes, blocks or suspends); then it changes, or removes, that process and no other; if it fails, nothing changes |
| Machines.ExecuteAnswers | user/user_pcb.c:124-469 | which failure of which command is answered with which number; user processes may get the priorities 1 to 9, system processes 0 to 9 |
| Machines.FindIsFirst | kernel/pcb.c:302-325 | a name stands for the first process that has it, in the queue of the lowest number; the empty name for nobody |
| CommandOrder.ExecuteMoves | user/user_pcb.c:124-469 | all four queues after a successful command: delete takes its process out; a priority set on a blocked process leaves it where it stands; all else moves the process, changed as it should be and in nothing else, to its turn in the queue its states name: last on a blocked queue, by priority on a ready one |
| CommandOrder.OthersKeepOrder | user/user_pcb.c:124-469 | whatever a command does to its process, all others stay in their queues in the same order |
| Machines.ExecuteFiled | user/user_pcb.c:124-469 | after every command each process is in the queue its states name and both ready queues are in order |
| Machines.SysCallFiled | kernel/sys_call.c:11-85 | the same after every system call; the running process is READY and NOT_SUSPENDED |
| Machines.SysCallMeans | kernel/sys_call.c:11-85 | all three branches, with their numbers: IDLE and EXIT run the first ready process with its own context, IDLE requeues the caller behind all of its priority or better, and with nobody ready the boot context runs, answered with 0, and is forgotten; every other number is answered with -1, and no process, queue or other register changes |
| Kernel.ProcessTable.SysCall | kernel/sys_call.c:11-85 | on real PCBs, the queues, the current process, the boot context and the resumed context are those of SysCall on values, and those of the three branches written out |
| Requests.IoReachesDriver | user/core.c:31-56 | in every run, READ and WRITE may be called at any time and go on to the driver, with the caller's own device, buffer and length; nobody runs in between and nothing else changes |
| Requests.YieldAnswersItself | user/core.c:31-56 | a process that yields by sys_req(IDLE) gets 1 back when it next runs, and never goes on to a driver |
| PcbMemory.PcbStore.PcbAllocate | kernel/pcb.c:240-255 | takes a block for the PCB; stackPtr and the links are set |
| PcbMemory.PcbStore.PcbSetup | kernel/pcb.c:267-300 | takes the two blocks that Setup names or none; the name is copied faithfully with its NUL, and no other byte is written |
| PcbMemory.SetupIsAtomic | kernel/pcb.c:240-300 | NULL and the same live allocations, or exactly two new ones, disjoint and large enough |
| PcbMemory.FailedSetup | kernel/pcb.c:277-282 | a failed pcb_setup leaves the heap exactly as it was if and only if it had no block for the PCB or did not split one |
| PcbMemory.PcbStore.PcbFree | kernel/pcb.c:257-265 | heap layout and answer are those of GiveBack; the two blocks of the PCB are given back and nothing else |
| PcbMemory.GiveBackIsExact | kernel/pcb.c:257-265 | the two frees are safe, answer 0, and end exactly those two allocations, whatever happened since |
| PcbMemory.SetupThenGiveBack | kernel/pcb.c:240-300 | pcb_free after pcb_setup brings back the same live allocations |
| PcbMemory.LiveApart | kernel/library.c:47-82 | two live allocations share no byte and lie inside the arena |
| Boot.LoadProcess | user/comhand.c:58-98 | without memory nothing is enqueued; else the process joins the ready queue by its priority, at its entry, with the loader's segment registers and flags, all other registers 0, and a stack that lies with room for a context inside the live block of its own PCB; its name is in memory |
| Boot.BootMemory | kernel/kmain.c:137-143 | vm_init and initialize_heap succeed together, exactly below the image limit, and the heap is one free block of 50000 bytes at its base |
| Boot.BootProcesses | kernel/kmain.c:27-75 | on a fresh heap there is memory for both system processes, so neither load_proc follows a NULL pointer, and the queues are as on values |
| Boot.Kmain | kernel/kmain.c:137-160 | from power-up to the IDLE call: memory suffices just below the image limit; the machine is the one that runs start from, and with the heap that was built it satisfies the invariant of the runs of processes and heap together |
| Boot.KmainStartsRuns | kernel/kmain.c:152-160 | that machine satisfies the invariant of all runs |
| Scheduling.BootSound | kernel/kmain.c:27-75 | comhand is first and idle second in the ready queue, and the invariant holds |
| Scheduling.StepSound | kernel/sys_call.c:11-85 | every step of every process keeps the invariant: one PCB for each process, in the queue its states name or running; comhand and idle ready or running; every stored context the right one |
| Scheduling.CallsAreGood | kernel/sys_call.c:52-76 | no system call that a process can make follows a NULL pointer |
| Scheduling.Availability | kernel/sys_call.c:11-85 | in every run, comhand until it exits, and idle until kmain resumes, are ready or running |
| Scheduling.ExitFallbackUnreachable | kernel/sys_call.c:57-76 | whenever a process exits, somebody is ready |
| Scheduling.IdleFallback | kernel/sys_call.c:42-50 | the IDLE fallback is taken just when nobody is ready, and then comhand has exited and idle made the call; kmain resumes with 0 and idle's PCB is gone |
| Scheduling.ContextIntegrity | kernel/sys_call.c:16-50 | a process resumes with exactly the context of its latest IDLE, whatever the others did in between |
| Scheduling.FirstContext | user/comhand.c:58-98 | a process first runs with exactly the context its loader made |
| Scheduling.BootStarts | kernel/kmain.c:27-75 | in every run from boot, comhand and idle first run at their entries, with the registers that load_proc stores |
| Scheduling.LoadedStarts | user/comhand.c:58-98 | in every run, a process that is loaded first runs at its entry |
| Scheduling.KmainResumes | kernel/sys_call.c:16-50 | kmain gets back the context of its IDLE call with EAX 0 |
| Scheduling.ShutdownBound | kernel/sys_call.c:11-85 | after comhand has exited, every run makes at most 2W + 1 IDLE and EXIT calls, and one that makes as many as remain ends in kmain |
| Scheduling.ReturnsToKmain | user/core.c:64-135 | after comhand has exited, the machine is back in kmain within 2W + 1 IDLE and EXIT calls, whatever the priorities |
| Scheduling.MovesOn | user/core.c:64-135 | nobody is ever stuck: until kmain resumes, a dispatching call is always possible |
| Scheduling.ShortestRun | kernel/kmain.c:152-160 | boot, comhand's exit and one IDLE of the idle process are a run, and it ends in kmain |
| Ownership.DoSound | kernel/sys_call.c:52-76 | every step of processes and heap together leaves each live process exactly two allocations, of its own: what a process gets is new, and both go when it exits or is deleted |
| Ownership.NoDoubleFree | kernel/sys_call.c:55 | in every run, pcb_free, as the dispatcher and delete_pcb call it, frees two live allocations and answers 0 |
| Ownership.LoadIsPossible | user/comhand.c:58-98 | the PCB of a loaded process is at an address that no live process has |
| Ownership.RunsAreRuns | kernel/sys_call.c:11-85 | every run of processes and heap together is a run of the processes, so all that holds of those runs holds here |
| Ownership.LoadedStarts | user/comhand.c:58-98 | a process loaded into memory from the heap first runs at its entry, on the stack of its own PCB, whatever happens to processes and heap in between |
| Ownership.WhatIsLeft | kernel/sys_call.c:42-50 | when kmain resumes, the PCBs still on the heap are those of suspended and blocked processes, and idle's |
| Ownership.BootSound | kernel/kmain.c:152-157 | the two processes of kmain, on any heap with room, are where these runs start |
| Rotation.BestRotation | kernel/sys_call.c:23-41 | a strictly best process runs every second time, the next best in turn between, the state recurs after two rounds, worse ones never run |
| Rotation.EqualRotation | kernel/sys_call.c:23-41 | equals take turns with their number as period, worse ones never run |
| Rotation.OnlyTheBestRun | kernel/sys_call.c:23-41 | from every state, as long as everybody only calls IDLE, all who run are the running process (the best waiting one, if that is better) or of the best priority it finds ready |
| Rotation.IdlePromise | include/processes.h:42-46 | idle anywhere in the ready queue: IDLE dispatches it if and only if nobody ready is better or has waited longer at its priority; nobody is ready afterwards if and only if kmain made the call and idle was alone; so the promise is kept if and only if the first fails or the second holds |
| Rotation.ExitPromise | include/processes.h:42-46 | the same for EXIT, where nobody is ready afterwards if and only if idle was alone; so the promise is kept whenever all others are strictly better |
| Rotation.CallerPassedOver | kernel/sys_call.c:23-41 | comhand calls IDLE with only idle ready: idle is dispatched and comhand, which is better, is ready |
| Rotation.IdlePromiseFails | include/processes.h:42-46 | with a user process of priority 9, idle is dispatched though another process is ready |
| LineEditor.SerialPoll | kernel/serial.c:96-278 | for every input the buffer holds exactly the text the keys mean, cursor and count agree, at most len - 1 characters, every access in bounds, and a cleared buffer stays NUL-terminated |
| LineEditor.PressKey | kernel/serial.c:123-262 | shifting characters one at a time refines the key's effect on the two-sided text |
| LineEditor.TextAfter | kernel/serial.c:123-262 | what each key does to the whole text at the cursor's place |
| LineEditor.SessionFits | kernel/serial.c:105 | no session has more than len - 1 characters |
| Keystrokes.LeftKey | kernel/serial.c:237-249 | ESC [ D carries the last character before the cursor behind it, if there is one |
| Keystrokes.RightKey | kernel/serial.c:237-249 | ESC [ C carries the first character behind the cursor before it, if there is one |
| Keystrokes.DeleteKey | kernel/serial.c:161-182 | ESC [ 3 ~ removes the first character behind the cursor, if there is one |
| Keystrokes.BackspaceKey | kernel/serial.c:123-140 | byte 127 removes the last character before the cursor, if there is one |
| Keystrokes.EndKeys | kernel/serial.c:112-121 | bytes 13 and 10 end the line as it is |
| Keystrokes.PlainKey | kernel/serial.c:141-262 | every byte but 10, 13, 27 and 127 goes in before the cursor |
| Keystrokes.OtherSequences | kernel/serial.c:154-253 | all other escape sequences are read and do nothing |
| Keystrokes.UnfinishedSequences | kernel/serial.c:154-161 | in the middle of an escape sequence the line stays and the editor waits for more |
| Keystrokes.Typed | kernel/serial.c:253-262 | a plain text typed anywhere goes in before the cursor |
| Keystrokes.MovedLeft | kernel/serial.c:237-249 | n times left carries the last n characters behind the cursor |
| Keystrokes.TypedInside | kernel/serial.c:105-278 | typing a text, going n places back, typing another and Enter makes the line with the second text n places before the end of the first |
| Keystrokes.CutOff | kernel/serial.c:105-278 | going n places back and m on, and deleting the rest, keeps all but the last n - m characters |
| Keystrokes.TypedLine | kernel/serial.c:105-278 | a plain text that fits, and Enter, becomes the line |
| Keystrokes.TypedAndErased | kernel/serial.c:105-262 | wherever the cursor is, a plain text that does not fill the buffer, and as many backspaces, or as many steps back and deletes, leave no trace on the rest of the session |
| Keystrokes.TypedTooMuch | kernel/serial.c:105-278 | of a text that does not fit, len - 1 characters do, and the call returns with the rest unread |
| Strings.Strlen | lib/string.c:21-28 | the length of the text before the NUL |
| Strings.Strcmp | lib/string.c:5-19 | 0 if and only if the texts are equal; else the difference of the characters where they part |
| Tokens.RunsAreExact | lib/string.c:30-77 | the runs are all maximal delimiter-free stretches and nothing else |
| Tokens.RunsAreOrdered | lib/string.c:30-77 | they come in order with a delimiter between |
| Tokens.Tokenizer.Strtok | lib/string.c:30-77 | one call, with a new string or the old one: result, buffer and static cursor are those of Next |
| Tokens.NextHandsOut | lib/string.c:30-77 | a call hands out the first run at or behind the cursor, writes one NUL behind it, and leaves the cursor at the unread rest |
| Tokens.TokensAreTheRuns | lib/string.c:30-77 | the k-th call gives the k-th run of the original string, and NULL forever after the last; each token reads as exactly the text of its run, when it is handed out and after all calls |
| Numbers.Atoi | lib/stdlib.c:4-29 | white space, sign and digits, with 32-bit wrap-around |
| Numbers.ParseIsExact | lib/stdlib.c:4-29 | for white space, perhaps a sign, digits, and a rest: the number the digits stand for, with its sign, modulo 2 to the 32nd; exactly that number if it is an int |
| Numbers.EveryTextHasShape | lib/stdlib.c:4-29 | every text has that shape, so ParseIsExact covers all inputs |
| Numbers.Reverse | lib/stdlib.c:32-42 | reverses the text in place and touches nothing behind it |
| Numbers.Itoa | lib/stdlib.c:45-61 | writes the canonical decimal form, and for the least int what the overflow makes of it |
| Numbers.DigitsStandFor | lib/stdlib.c:45-61 | the digits that itoa writes stand for its number, place by place |
| Numbers.ParseDecimal | lib/stdlib.c:4-29 | atoi reads every decimal numeral of an int, after any white space and before anything but a digit |
| Numbers.RoundTrip | lib/stdlib.c:4-61 | atoi undoes itoa if and only if the number is not the least int, which is written -( and read back as 0 |
| Numbers.DecimalIsUnique | lib/stdlib.c:45-61 | different ints are written differently |

## Left out

- Scheduling.Possible: an r3 process makes finitely many IDLE calls and then EXIT, as `r3_proc` does; processes made by `create_pcb`, which have no valid context, do not occur in runs.
- HeapRuns.Legal: a run ends before a `free_memory` of the first free block with a block below it; what that one call does is stated by `Free`, what later calls do to the broken lists is not.
- Kernel.ProcessTable.SysCall: the exiting process's memory is given back in module Ownership, on values, not here; contexts are values, so that two stacks cannot overlap is not stated beyond the disjointness of their blocks.
- PcbMemory.PcbStore.PcbAllocate: the zeroing of the process's stack is not modelled; the loaders set every register of the first context.
- LineEditor.SerialPoll: the keys up and down do nothing, as for the first line; with a history the code redirects its local pointer to earlier callers' buffers, and it stores the new history entry through a `sys_alloc_mem` result that it does not check (kernel/serial.c:282-283). The bytes after ESC are read by the code without a status test (kernel/serial.c:155-162); the model waits for them.
- PcbQueues.ProcessQueue.Dequeue: a PCB that is not in the queue while another of its name is; the code finds the other one and then follows the NULL links of the first.
- VirtualMemory.AddressSpace.GetPage: making a page table once the primitive heap is in use; no caller does; the table would then come from that heap.
- PhysicalMemory.Walk: the accessed and dirty bits and cached translations; nothing is unmapped after paging is on.
- Kernel.ProcessTable.DeletePcb: the `pcb_free` of the deleted PCB is in module Ownership, on values.
- Numbers.Atoi: signed overflow, which C leaves undefined, is taken to wrap around at 32 bits.
- Echo to the screen, command parsing, prompts, the show commands, help and version: user interface.
- GDT, IDT, PIC, port access, the interrupt entry code, and the loading of the control registers: hardware.
- Date, time and BCD conversion, and alarms: separate small domains.
- kernel/r6.c: unfinished, its device blocks are all NULL.
- The user's commands to allocate and free arbitrary heap memory: the second can free the memory of a live process.
- `kmalloc` as the fallback of `sys_alloc_mem` before the heap functions are installed: nothing allocates that early.
