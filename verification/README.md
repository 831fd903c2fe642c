# Verified model of the PandOS+ kernel

PandOS+ is a kernel for the uMPS3 machine: a nucleus (processes, two-level scheduler, binary semaphores, system
calls, interrupts), a demand pager with a swap pool over flash devices, and a memory log with a few string helpers.
This project models those parts and proves what they promise. `dafny verify dfyconfig.toml` checks everything.
`MAXPROC`, `SP_SIZE`, the length of the page tables, the number of processes, the size of the TLB, `KLOG_LINES` and
`KLOG_LINE_SIZE` are parameters everywhere, so no statement is about particular sizes.

## How it is built

**The nucleus** exists twice. `NucleusState` and `NucleusStep` give its state as values (`Sys`: the queues as
sequences, the semaphore list as a map, the columns of the process table) and every routine as a function, up to
`Step`: one passage from an exception to the next process, the idle wait, the halt or the panic. `NucleusInvariant`,
`KillTree`, `NucleusRuns`, `NucleusTheorems`, `Waiting`, `CpuTime`, `Semaphores` and `SemaphoreQueues` prove what
holds of it. `Passages` and `ReadyQueues` determine what a passage does to every variable, in terms of the exception
and the state before it alone, and `Lifetimes` follows a process from creation to termination. `Requests` has what
holds from a device request to its answer, and `RequestExample` is a run from power-on on which a stranger is
answered. `Listx`, `ProcQueues`, `Asl` and `Kernel` are the C code itself as classes: circular lists as `next`/`prev`
links in an arbitrary initial memory, the descriptor table, the table's columns and the scheduler's variables changed
in place; each method is proved to compute the corresponding function, ending with `Kernel.Nucleus.ExceptionHandler`,
which equals `Step`, and `Kernel.Nucleus.RunKernel`, which goes from power-on through any run. `KillSteps` connects
the recursive, link-by-link termination of the code with its closed form. `DeviceIo` has the address arithmetic and
the bitmap loops that decide which device a request or an interrupt is about.

**The pager** is a protocol: `PagerState` cuts `tlb_exc_handler` and `terminate` into the steps between which another
process can run (a system call, or an instruction with interrupts on) and adds what other processes do meanwhile: use
their memory, have the TLB refilled, trap, end. Either flash transfer may fail. The update of `sp_asids` in
`clean_frames` is two such steps, a load and a store. That only one process is between taking and releasing the swap
pool is the protocol's guard on `Lock`; `SwapPool` shows on the nucleus's runs that P and V on `sp_sem` keep processes
apart in just this way. `PagerInvariant` has two invariants: `Sound` holds under every interleaving; `Inv`, which also
says what `sp_asids` means, holds exactly as long as no store of `sp_asids` undoes another process's. `PagerTheorems`,
`Transparency` and `PagerFault` draw the conclusions, `PagerExamples` and `PagerLostByte` have two kinds of run on
which paging is not transparent, followed step by step with `PagerRuns`. `PagerCode` is `pager.c` and the end of a
process as a class over the swap pool table, the page tables, `sp_sem`, `sp_asids` and the processor's TLB, with
entryHI values as `init_page_table` computes them; every method is proved to be the protocol's step.

**Text.** `Klog` is the ring buffer as a window on an unbounded wrapped text, `Text` is `_itoa`, `_strcat` and `dbg_var`
on character arrays. Negation of an int wraps round at 32 bits.

## Assumptions

* A passage through the kernel is atomic (the nucleus runs with interrupts off). Time is a counter that an exception's
  handling and a load advance by any amounts; it does not overflow.
* NSYS2 is given 0 or the address of a block of the process table that is live or has been before. A block never used
  since power-on is not modelled: `remove_child` reads a list head and a `p_parent` that nothing initialises
  (src/pcb.c:41-50), and `Kernel.Nucleus.NeverAllocated` shows that it does not find what it finds in other blocks.
* NSYS5 is given a null address or one inside a device register. For an address that its search finds in no register
  `do_io` calls `passeren` on an uninitialised pointer less one (src/syscalls.c:319-335), which is not modelled
  (`DeviceIo.DoIoEvent` yields no event).
* User processes call NSYS3/NSYS4 with addresses of their own semaphores, not of the kernel's, and do not write
  semaphores otherwise.
* Of the exceptions these assumptions admit (`Possible`), the invariant is kept by all but two (`Tame`): a device
  completion while the device's semaphore is 1 and a process runs, and NSYS2 on a freed block.
  `NucleusTheorems.SettledExactly` shows that this is exact, and what the two do instead is proved as well.
* Any priority may be asked for and the table may fill up: processes that the code then loses are modelled as lost, and
  `NucleusTheorems.LostExactly` says precisely when that happens.
* The uMPS3 headers are not part of the repository: `DEV_REG_START` is 0x10000054, `DEV_REG_SIZE` 0x10, a register
  address is start + line * 0x80 + device * 0x10, the interrupt lines are 0 for other processors, 1 for the local
  timer, 2 for the interval timer and 3 to 7 for the devices, `ENTRYHI_GET_VPN` takes bits 12 to 29, `ENTRYLO_GET_PFN`
  yields the frame's address and `EXC_MOD` is 1. `NULL` is 0xFFFFFFFF, as `listx.h` defines it.
* In the pager a process ends by its own SYS2 or by being killed for a fault of its own; asids are used once. A failed
  flash transfer may leave anything where it was going. After a failed read the handler returns with `sp_sem` taken;
  what it returns to is not modelled, and its process takes no further step. A process's page number is inside its
  page table. A load or a store of the byte `sp_asids` is one step. Theorems about what `sp_asids` means, and about
  memory contents, are about runs on which no store of it is lost (`PagerTheorems.NothingLost`); those about the TLB,
  the replacement order and progress are about all runs.

## What differs from the repository's own documentation

* README.md:161-169 says that P blocks when the semaphore is 1 and V when it is 0. The code does the opposite
  (src/syscalls.c:203, src/syscalls.c:232), and so does the model.
* README.md:174-180 says that the circular scan limits how often an occupied frame is replaced.
  `PagerTheorems.FramesInTurn` shows that on every run it picks the same frames as the plain counter.
* README.md:120-121 says that the support level's trap handler tells the pager. It calls `safe_kill`, which does not
  (src/support.c:105, src/sys_support.c:270), so the bit in `sp_asids` stays on. src/pager.c:38-45 and README.md:182-186
  say that a bit that is on belongs to a living process; `PagerTheorems.BitOfTheDead` says exactly when that fails.
* src/pager.c:56-60 asks `free_frame` for the asid of the frame's owner; src/pager.c:159 passes that of the faulting
  process. `PagerFault.FaultUnnoticedExactly` says exactly which faults go unnoticed nevertheless.
* A failed write-back is not given up (src/pager.c:278-282, src/pager.c:158-166): the fault goes on and the victim's
  page is overwritten. `Transparency.WriteFailsExactly` says exactly when that is harmless. A failed read keeps the
  swap pool locked (src/pager.c:168-172): no page fault is served afterwards (`PagerTheorems.AbandonedForGood`).
* `clean_frames` updates `sp_asids` with interrupts on (src/pager.c:303, src/init_proc.c:62-66), so its store can undo
  what another process has changed since its load. `PagerInvariant.WriteByteExactly` says when the store keeps the
  invariant, `PagerLostByte.LostByteLosesAPage` is a run on which a living process then loses a page.
* `P_BIT` in src/pager.c:200 is not the bit that a failed TLB probe sets, so `update_tlb` always writes;
  `PagerCode.PagerMemory.UpdateTlb` proves the result and `PagerInvariant.StepSound` that it does no harm.
* A device completion that nobody waits for, for instance because the requester was terminated meanwhile, writes the
  status into v0 of the process that happens to run (src/syscalls.c:256, src/interrupts.c:158-159):
  `NucleusTheorems.CompletionExactly`, `Requests.KilledRequester`, `RequestExample.StrangerIsAnswered`.
* NSYS2 on a block that was freed never returns (src/syscalls.c:184-196): the process count falls by one, the block is
  linked into the free list twice and the walk of `is_alive` goes round for ever (`Kernel.Nucleus.TerminateFree`).
* Any process can make the kernel panic by NSYS5 with a null address (src/syscalls.c:301-304);
  `NucleusTheorems.PanicsExactly` lists the panics of all the exceptions modelled.
* `DEVICE_FROM_COMDADDR` divides a signed number, so the 15 bytes below the register area are taken for its first
  device (`DeviceIo.FindDevice`).
* A failed CREATEPROCESS gives its caller no answer: -1 is not a verdict, and the caller is never run again.
* `kprint_int` prints "-(" for the smallest int (`Klog.PrintedReads`); `_itoa` gets it right.

## Model

| member | source | states |
|---|---|---|
| NucleusStep.StepSettles | src/kernel.c:101-174 | every tame exception leads from a sound state to a sound state: each block in exactly the list its place says, semaphore list, values, process tree and counters exact, and a process running, or the processor waiting with nobody running |
| NucleusRuns.Run | src/kernel.c:101-174 | after any finite sequence of tame exceptions the state is sound |
| NucleusRuns.BootExactly | src/kernel.c:55-80 | after the first dispatch init alone lives, has low priority, no support structure, no parent and an empty account, the other blocks are free in order, and the kernel's semaphores are 0 |
| NucleusRuns.BootSettles | src/kernel.c:55-80 | the state `main` hands over is sound and the init process runs, whatever the table size, the addresses and the semaphores' first values |
| NucleusTheorems.ExactlyOnePlace | src/scheduler.c:58-207 | between passages each block is in exactly one of: free list, low queue, high queue, one semaphore's queue, running; read off the kernel's lists, and no list repeats a block; the exception is a lost process, which is in none |
| NucleusTheorems.LostExactly | src/syscalls.c:172-182 | a passage loses a process if and only if: a create with a full table (the caller), a create with a priority other than low and high (the child), a device request while the semaphore is 1 (the caller) |
| NucleusTheorems.LostForGood | src/kernel.c:165-173 | a lost process is never scheduled again; only its termination ends it |
| NucleusTheorems.SettledExactly | src/syscalls.c:184-256 | whatever the exception, of those modelled, the state stays sound if and only if it is neither a device completion on a semaphore at 1 while a process runs nor NSYS2 on a freed block |
| NucleusTheorems.DoubleCompletionBreaks | src/interrupts.c:152-162 | the first of these queues the running process, which is then resumed while still queued |
| NucleusTheorems.FreeTargetBreaks | src/scheduler.c:130-156 | the second lowers the process count below the number of live processes and changes nobody's place |
| Kernel.Nucleus.TerminateFree | src/syscalls.c:184-196 | on links and fields, for a freed block: remove_child finds no child, kill_proc finds no parent, semaphore or queue, lowers the count and links the block into the free list again, and is_alive, cut off after any number of turns, is still walking |
| Kernel.Nucleus.FreedBlock | src/pcb.c:171-192 | a freed block's list of children is initialised and empty, its p_parent is NULL, and it is in no queue |
| Kernel.Nucleus.NeverAllocated | src/pcb.c:41-50 | for a block never allocated the list of children is empty only if static memory happened to hold the sentinel's own address, and p_parent is not NULL |
| Kernel.Nucleus.FreeTargetNeverReturns | src/pcb.c:16-28 | after the second linking the free list's ring bypasses the sentinel for ever: after any number of steps the walk of `is_alive` stands at a free block with another id than the caller's |
| Listx.AddedTwiceLoops | src/listx.h:107-127 | adding an element to a ring it is in already gives a walk that goes round among the elements up to it and never meets the sentinel again |
| NucleusTheorems.KillsExactlySubtree | src/syscalls.c:260-267 | termination frees exactly the process and its descendants, takes them out of every queue keeping the others' order and links, and lowers both counters by exactly what was removed |
| KillTree.PostOrderSubtree | src/syscalls.c:260-267 | the order in which the recursion frees processes lists the subtree, each process once, for any tree |
| KillTree.SubtreeClosed | src/syscalls.c:260-267 | no survivor's parent is removed |
| KillTree.DropCore | src/scheduler.c:130-156 | removing such a set keeps the whole invariant, counters included |
| KillSteps.DropOneIs | src/scheduler.c:130-156 | kill_proc on one childless process is the closed form on one process |
| KillSteps.Turn | src/syscalls.c:260-267 | one round of the while loop (detach the first child, kill it with its progeny) brings the state from "the first i children are gone" to "the first i + 1 are" |
| KillSteps.LastTurn | src/syscalls.c:260-267 | after the last child, killing the process itself completes the closed form |
| NucleusTheorems.NothingReady | src/scheduler.c:80-104 | with empty queues the scheduler halts iff nobody lives, waits iff somebody is blocked, panics iff somebody lives and nobody is blocked; and every live process is then blocked, the yielder, or lost |
| NucleusTheorems.SomethingReady | src/scheduler.c:58-79 | otherwise the head of the highest non-empty queue runs, never the one that yielded, which is back in a queue |
| ReadyQueues.ReadyAfter | src/kernel.c:158-173 | after any passage both ready queues, the running process and the mode, exactly: the terminated leave their queue; who is woken or created joins the queue of its priority at the end, then the caller if it is sent back; if nobody goes on the head of the high queue runs, failing one that of the low queue, and the yielder joins last; with both empty the kernel halts, waits or panics according to who lives and who is blocked |
| ReadyQueues.HighTurn | src/scheduler.c:58-79 | while a high-priority process is ready every choice of scheduler_next is one from the high queue, and brings those behind it one place forward |
| ReadyQueues.HighBoundedWait | src/scheduler.c:58-79 | on every run the process at position i of the high queue runs, or is terminated, before scheduler_next has chosen more than i times, whoever is woken, created, sent back or yields |
| Passages.Verdicts | src/kernel.c:165-173 | which exceptions resume the interrupted process, send it back, or leave the kernel by a panic or to the process's own handler: an iff each, on the exception and the state before it |
| Passages.TableAfter | src/scheduler.c:107-156 | the columns of the process table after any passage: a new block has the priority, support structure and parent asked for and is its parent's newest child; the terminated are unlinked and freed, the root first in the free list; no other passage writes priority, support, parent, children, age or free list |
| Passages.RepliesAfter | src/syscalls.c:172-182 | v0 of every process after any passage: NSYS1 is answered with the new block's address, NSYS6 with p_time, NSYS8 with the support structure, NSYS9 with the caller's or its parent's address or 0, a completion with its status; a new process has the v0 handed over; nobody else's is written |
| Passages.MarksAfter | src/syscalls.c:198-258 | who blocks is marked as in a P or in a V |
| Passages.KilledExactly | src/syscalls.c:184-196 | exactly the process NSYS2 names, or its caller for 0, or one that traps without support structure, die, with all that descend from them |
| Lifetimes.CreationExactly | src/scheduler.c:107-128 | NSYS1 in terms of its arguments: priority, support structure, v0, parent, place at the end of the queue of its priority, and what stays of everybody else |
| Lifetimes.LivesExactly | src/scheduler.c:107-156 | those live after a passage who did before and were not terminated, and the new process |
| Lifetimes.FieldsStay | src/scheduler.c:178-207 | on every run a process that is not terminated keeps its priority, its support structure and its parent |
| Lifetimes.CreatedForLife | src/scheduler.c:107-128 | on every run, from creation to termination, a process has the priority and support structure its creator gave it and the creator as parent |
| Lifetimes.SupportForLife | src/syscalls.c:350-354 | NSYS8 tells a process the support structure it was created with, on every run |
| Lifetimes.IdentifierForLife | src/syscalls.c:356-376 | NSYS9 tells a process the identifier that NSYS1 told its parent, on every run |
| Lifetimes.ParentForLife | src/syscalls.c:356-376 | and for the parent, its creator's address |
| Lifetimes.ParentTold | src/syscalls.c:356-376 | NSYS9 for the parent gives q's address if and only if the caller is among q's children, and 0 if and only if it is nobody's child |
| Lifetimes.TimeForLife | src/syscalls.c:340-346 | NSYS6 tells a process the sum of its own bills since its creation, on every run |
| NucleusTheorems.PanicsExactly | src/syscalls.c:106-150 | a passage panics if and only if it is a P or V on a value other than 0 and 1, a request with a null address, or an interrupt past the last device, or its caller stops and it leaves somebody alive and nobody ready or blocked; all seen in the state before it |
| NucleusTheorems.PanicOnlyWhen | src/scheduler.c:96-104 | nobody being lost before it or by it, the last of these happens if and only if the caller yields and is the only live process |
| Semaphores.ValuesNeverPanic | src/syscalls.c:112-150 | on every run from binary semaphores the two panics for a value out of range never happen |
| NucleusTheorems.WaitNeverPanics | src/scheduler.c:93-95 | returning from WAIT never panics unless a process was lost |
| NucleusTheorems.TickWakesAll | src/interrupts.c:57-69 | a tick wakes exactly the processes blocked on the pseudo-clock, appends them to their priority's queue in blocking order, lowers sb_procs by their number and leaves the semaphore 0 |
| Requests.RequestIsAnswered | src/syscalls.c:319-337 | a request with an address in a device's register puts its caller last on that device's semaphore when that is 0, and, while somebody waits there, the interrupt that reports the device, at a terminal in the direction the address asks for, gives the status to whoever asked first and to nobody else, and that process is ready or runs afterwards |
| NucleusTheorems.CompletionAnswers | src/interrupts.c:152-162 | the whole effect of a tame completion: the status goes to the oldest requester, failing one to the running process, and nowhere else; the requester becomes ready and leaves the queue, or the semaphore becomes 1 |
| NucleusTheorems.CompletionExactly | src/interrupts.c:152-162 | whatever its status, a tame completion changes v0 of nobody but a requester if and only if somebody waits for the device or nobody runs |
| Requests.KilledRequester | src/interrupts.c:152-162 | terminating the only requester of a device makes the completion write its status into v0 of the process that runs then |
| RequestExample.StrangerIsAnswered | src/syscalls.c:248-257 | a run from power-on after which init is given the status of a request it never made |
| Waiting.TurnStep | src/scheduler.c:58-79 | a passage never moves a low-priority process away from the head, and moves it nearer when the low queue is served |
| Waiting.BoundedWait | src/scheduler.c:58-79 | the process at position i of the low queue runs, or is terminated, before the low queue has been served more than i times, on every run |
| CpuTime.StepTimes | src/kernel.c:158-163 | a passage changes a process's p_time by exactly what its bill says, a created process starts at 0, and the clock does not go back |
| CpuTime.ClocksAfter | src/kernel.c:158-163 | the clock, every p_time and every p_tm_updt after any passage, exactly |
| CpuTime.StaysPunctual | src/scheduler.c:202-206 | the running process's p_tm_updt is the moment it was loaded |
| CpuTime.BillsApart | src/kernel.c:158-163 | on every run the charged intervals are pairwise disjoint and inside the run |
| CpuTime.TimeIsBilled | src/kernel.c:158-163 | a process's account grows by exactly the sum of its own intervals |
| CpuTime.UsedBounded | src/pcb.c:88-91 | the sum of p_time over the live processes grows by no more than the time that passed; idle time is charged to nobody |
| CpuTime.UsedFromBoot | src/kernel.c:55-80 | from power-on that sum never exceeds the time that has passed |
| Semaphores.StepConserves | src/syscalls.c:198-258 | for every semaphore, the kernel's included: value after = value before + completed Vs - completed Ps |
| Semaphores.TokensConserved | src/syscalls.c:198-258 | on every run, kills included, a semaphore's value is the initial one plus completed Vs minus completed Ps |
| Semaphores.BinaryForever | src/syscalls.c:198-258 | on every run a semaphore that starts 0 or 1 stays 0 or 1 |
| Semaphores.WaitersAgree | src/syscalls.c:203-215 | whoever is queued on a semaphore at 0 is in a P, at 1 in a V |
| Semaphores.LeavesByCompletion | src/syscalls.c:216-220 | a process leaves the queue of any semaphore, a device's and the pseudo-clock's included, only by having its operation completed or by being terminated |
| Semaphores.AtMostOneInside | src/pager.c:148-193 | a semaphore that starts at 1 and whose V only a holder calls has at most one holder at any time, on every run: sp_sem and each entry of dev_sems |
| SwapPool.OneInThePool | src/pager.c:148-193 | if every process calls P and V on a semaphore in turn, as tlb_exc_handler does on sp_sem, and it starts at 1 with nobody waiting, then on every run, kills included, only a process past its P calls V, at most one is past it, and processes enter and leave one at a time |
| SwapPool.PagerIsExclusive | src/pager.c:148-193 | on every run of the pager's protocol, too, the pool is entered and left one process at a time |
| SwapPool.LockExactly | src/pager.c:148 | the protocol's guard on taking the pool is that nobody is inside |
| SwapPool.NucleusGuardsThePool | src/pager.c:148-193 | the pager having taken the locks and unlocks granted so far on such a run, the next process let past its P finds the pool unlocked, and the next that calls V is the one that holds it |
| SemaphoreQueues.QueueAfter | src/syscalls.c:198-258 | what each exception does to each semaphore's queue: the terminated leave it, a P or V that is carried through for a waiter takes the head, one that is not puts the caller last, a tick empties the clock's, and nothing else touches it |
| SemaphoreQueues.ServedInTurn | src/syscalls.c:216-220 | first come, first served: the process at position i of any semaphore's queue has its operation carried through, or is terminated, at the latest by the release number i + 1 on that semaphore, on every run |
| Listx.InsertedRing | src/listx.h:107-114 | four link writes insert an element anywhere in a ring |
| Listx.BypassedRing | src/listx.h:150-154 | two link writes take any element out of a ring |
| Listx.RingFrame | src/listx.h:107-166 | writes to other links leave a ring alone |
| Listx.ListMemory.Add | src/listx.h:124-127 | the element becomes the first; all other lists are unchanged |
| Listx.ListMemory.AddTail | src/listx.h:137-140 | the element becomes the last; all other lists are unchanged |
| Listx.ListMemory.Del | src/listx.h:163-166 | exactly the element disappears from its list, order kept; all other lists are unchanged |
| Listx.ListMemory.IsEmpty | src/listx.h:189-192 | true just when the list is empty |
| ProcQueues.InsertProcQ | src/pcb.c:103-106 | append |
| ProcQueues.HeadProcQ | src/pcb.c:110-118 | the first element, or none |
| ProcQueues.RemoveProcQ | src/pcb.c:122-134 | removes and returns the first element, or none |
| ProcQueues.OutProcQ | src/pcb.c:139-157 | terminates; removes the process wherever it is in the queue, and returns NULL exactly when it is absent |
| ActiveSemaphores.SomeUnused | src/asl.c:37-48 | as long as one process is not blocked a descriptor is unused, by counting blockers against descriptors |
| ActiveSemaphores.Asl.GetSemd | src/asl.c:22-35 | finds the descriptor of a semaphore exactly when somebody is blocked on it |
| ActiveSemaphores.Asl.InsertBlocked | src/asl.c:37-64 | the process is last in the semaphore's queue; never returns TRUE for a process that is not blocked, so the panics in passeren and verhogen are unreachable |
| ActiveSemaphores.Asl.RemoveBlocked | src/asl.c:66-84 | the oldest blocked process, and the descriptor is given back when the queue becomes empty |
| ActiveSemaphores.Asl.OutBlocked | src/asl.c:86-112 | takes the process out of whatever queue it is in, found exactly when it is blocked |
| ActiveSemaphores.Asl.HeadBlocked | src/asl.c:114-124 | the oldest blocked process, left where it is |
| ActiveSemaphores.Asl.InitAsl | src/asl.c:126-142 | no semaphore is active and all descriptors are unused, whatever memory held |
| Kernel.Nucleus.Boot | src/kernel.c:55-80 | the initialisation code, on memory with arbitrary links, semaphore values and zeroed parent pointers, which it leaves in all blocks but the first, produces the initial state of the model |
| Kernel.Nucleus.InitDevSem | src/interrupts.c:35-44 | the loops set the kernel's own semaphores to 0 and touch no other |
| Kernel.Nucleus.RunKernel | src/kernel.c:55-174 | initialisation, first dispatch and any run of tame exceptions, on links and fields, compute the model's run from power-on |
| Kernel.Nucleus.InitPcbs | src/pcb.c:41-50 | the free list holds the whole table in order and p_semAdd is cleared in every block |
| Kernel.Nucleus.IsAlive | src/pcb.c:16-28 | the walk over the free list decides whether a block that holds a live id is free |
| Kernel.Nucleus.MkProc | src/scheduler.c:107-128 | allocation, field setting (v0 from the caller's state), insertion among the caller's children and queueing compute the model's creation |
| Kernel.Nucleus.KillProc | src/scheduler.c:130-156 | the link and counter updates compute the removal of one process |
| Kernel.Nucleus.KillParentAndProgeny | src/syscalls.c:260-267 | on a live process the recursion terminates and computes the removal of the whole subtree |
| Kernel.Nucleus.EnqueueProc | src/scheduler.c:158-165 | appends to the queue of the process's priority, to neither for another priority |
| Kernel.Nucleus.LoadProc | src/scheduler.c:178-207 | requeues the yielder, then the process runs from now |
| Kernel.Nucleus.Dispatch | src/scheduler.c:58-105 | scheduler_next computes the model's dispatch |
| Kernel.Nucleus.Passeren | src/syscalls.c:198-225 | computes P on the model |
| Kernel.Nucleus.Verhogen | src/syscalls.c:227-258 | computes V on the model |
| Kernel.Nucleus.TickHandler | src/interrupts.c:57-69 | the while loop terminates, with measure waiters plus one while the value is not 1, and computes the tick |
| Kernel.Nucleus.CompleteHandler | src/interrupts.c:152-162 | computes a completion |
| Kernel.Nucleus.HandleSyscall | src/syscalls.c:85-170 | computes every system call's effect and verdict, the null request's panic included |
| Kernel.Nucleus.PassUpOrDie | src/syscalls.c:269-292 | passes up, or terminates the process with its progeny |
| Kernel.Nucleus.ExceptionHandler | src/kernel.c:101-174 | the whole handler, on links and fields, computes `Step` and leaves a sound state |
| DeviceIo.RegisterOf | src/pandos_const.h:170-174 | the command macro maps any address inside a register to that register's base, 0x10000054 + 0x80 * line + 0x10 * device, and no address is inside two |
| DeviceIo.FindDevice | src/syscalls.c:306-317 | the nested loops compute the search: for an address in a register that register's line and device, for the 15 bytes before the area the first device, else -1 |
| DeviceIo.DoIoEvent | src/syscalls.c:299-335 | a null address panics; for an address in a register the semaphore is that device's; at a terminal the output one for bytes 12 to 15 of the register, the input one for bytes 0 to 11 |
| DeviceIo.HighestBit | src/interrupts.c:91-96 | for a bitmap b > 0 the loop yields the i with 2^i <= b < 2^(i+1) |
| DeviceIo.HighestBitUnique | src/interrupts.c:91-96 | there is only one such i |
| DeviceIo.PendingEvent | src/kernel.c:116-126 | the loop serves the lowest pending interrupt line; with none pending the process is sent back |
| DeviceIo.HandleInterrupts | src/interrupts.c:46-126 | what each line is served as: nothing, the end of the time slice, a tick, or the completion of the highest device in the line's bitmap, at a terminal in the direction whose status ends in 5, transmission first |
| DeviceIo.GenericInterrupt | src/interrupts.c:128-163 | the interrupt is taken for the device of the highest pending bit, with its status; panic exactly for a bit past the last device |
| DeviceIo.TerminalInterrupt | src/interrupts.c:86-121 | transmission is served before reception, at most one a time, a direction being served if the low byte of its status is 5 |
| DeviceIo.RequestMeetsInterrupt | src/syscalls.c:319-335 | the semaphore a request waits on is the one signalled by the interrupt that reports that device: at a terminal a finished transmission answers the last word, a finished reception the others |
| DeviceIo.RequestsApart | src/syscalls.c:319-335 | two requests wait on the same semaphore if and only if they are to the same device and, at a terminal, in the same direction |
| PagerInvariant.StepSound | src/pager.c:122-196 | every step of every process, in any interleaving, keeps frames mapped, TLB, phase, trapped processes and replacement order consistent, whatever was done to sp_asids |
| PagerInvariant.StepInv | src/pager.c:122-304 | every step but a stale store of sp_asids also keeps the byte exact, the valid entries framed and the frame being filled unclaimed |
| PagerInvariant.WriteByteExactly | src/pager.c:303 | the store of sp_asids in clean_frames keeps the invariant if and only if the byte is still the one that was loaded |
| PagerTheorems.InvThroughoutExactly | src/pager.c:122-304 | on every run the invariant holds at every point if and only if no store of sp_asids was stale |
| PagerTheorems.UndisturbedIsFresh | src/pager.c:303 | a store is not stale if between its load and it no page was brought in and no other process stored the byte |
| PagerTheorems.AloneLosesNothing | src/pager.c:303 | with one process no store is ever lost |
| PagerLostByte.LostByteLosesAPage | src/pager.c:303 | a run from the start, with two processes, on which such a store is lost and the living process ends with both its pages valid in one frame and reads 0 where it stored 7 |
| PagerInvariant.InitialInv | src/support.c:37-58 | the initial tables are consistent |
| PagerInvariant.ChoosesNearest | src/pager.c:217-232 | for any table choose_frame takes the circularly nearest vacant frame, or the next one when none is vacant |
| PagerInvariant.ChoosesInTurn | src/pager.c:217-232 | on consistent states the scan is a counter modulo SP_SIZE |
| PagerTheorems.MappingIsBijective | src/pager.c:234-246 | in every state reached without a lost store, frames of processes that live or have their bit on and those processes' valid entries correspond one to one, at the frame's address, and none is valid for a frame with a transfer pending |
| PagerTheorems.TlbStaysCoherent | src/pager.c:198-215 | on every run each TLB entry equals its page table entry and no page has two |
| PagerTheorems.FramesInTurn | src/pager.c:217-232 | on every run the fault number n is given frame n mod SP_SIZE, and a pool once full is full between faults |
| PagerTheorems.HolderProceeds | src/pager.c:148-193 | whatever others do, lost stores included, the process inside the semaphore can take its next step, unless its read failed |
| PagerTheorems.AbandonedForGood | src/pager.c:168-172 | after a failed read, on every run, the pool stays locked and whoever waits for a page waits on |
| PagerFault.ReleasedExactly | src/pager.c:148-193 | in every sound state there are steps that release the pool if and only if no read has failed |
| PagerTheorems.BitMeans | src/pager.c:293-304 | on every run without a lost store the bit is on iff (a page was ever brought in) differs from (clean_frames stored the byte), the switching being an exclusive or |
| PagerTheorems.BitOfTheDead | src/pager.c:38-46 | for a living process the bit says that a page was brought in; for a dead one it is on exactly when it was killed after a page had been, or called SYS2 before any had |
| Transparency.PagingIsTransparent | src/pager.c:122-196 | on every run whose victims are safe, or expendable where a write-back fails, and on which no store of sp_asids is lost, paged memory refines a flat one: each living process's page holds what was last stored there |
| Transparency.ReadsView | src/kernel.c:176-198 | a process reads a page's current contents through any valid TLB entry |
| Transparency.StoreView | src/kernel.c:176-198 | a store changes the one page it is to, in nobody else's memory |
| Transparency.WriteBackExactly | src/pager.c:270-276 | the write-back leaves every living process's pages alone, whatever the frame holds, exactly when the victim is safe |
| Transparency.WriteFailsExactly | src/pager.c:274-282 | a failed write-back leaves every living process's pages alone, whatever the frame holds and the device leaves, exactly when the victim's owner is dead and the block is not in use |
| Transparency.AloneIsSafe | src/pager.c:158-160 | with one process a run's victims are all safe if and only if no write-back fails |
| Transparency.AloneIsTransparent | src/pager.c:122-196 | so one process, on every run from the start on which no write-back fails, reads back what it stored, and its program's image where it stored nothing |
| PagerExamples.TwoProcessesLoseAPage | src/pager.c:158-160 | a run from the start, with two processes and one frame, after which a living process reads 0 where it stored 7 |
| PagerFault.RefillServes | src/kernel.c:176-198 | after a refill the missing page's own entry is in the TLB, and the other slots are as they were |
| PagerFault.AccessServed | src/pager.c:122-196 | whenever the pool is free, a process's access to any of its pages can be served, by a refill, a fault or both, and then finds a valid entry |
| PagerFault.ServiceRuns | src/pager.c:122-196 | a fault that gets the semaphore is served, however its transfers end: to the end, or up to a failed read |
| PagerFault.FaultUnnoticedExactly | src/pager.c:154-160 | no living process can tell that a fault whose transfers succeed was served, whatever the frame held, exactly when nothing is evicted, or the victim is the faulting process's own, or its owner is dead and the faulting process's page of the same number is in memory |
| PagerCode.EntryHiDecodes | src/support.c:70-79 | every handler's decoding of an entryHI gives back the page and the process, the stack's page included |
| PagerCode.EntryHiInjective | src/support.c:70-79 | entryHI values of different pages differ |
| PagerCode.PagerMemory.InitPageTable | src/support.c:60-80 | all entries invalid, with the entryHI of 0x80000000 + 0x1000 * page, the last one of 0xBFFFF000; other tables untouched |
| PagerCode.PagerMemory.InitSuppStructures | src/support.c:37-58 | all frames vacant, all bits off, sp_sem and every device semaphore 1 |
| PagerCode.PagerMemory.constructor | src/support.c:37-80 | the initial state of the protocol |
| PagerCode.PagerMemory.ChooseFrame | src/pager.c:217-232 | the loop computes the scan and remembers the frame |
| PagerCode.PagerMemory.UpdateTlb | src/pager.c:198-215 | writes the page's entry, or, when the probe fails, the slot INDEX happens to name; always returns 1 |
| PagerCode.PagerMemory.FreeFrame | src/pager.c:248-286 | computes the eviction's steps: three, or two when the write fails, the frame then staying taken |
| PagerCode.PagerMemory.CommitFrame | src/pager.c:174-190 | computes the second window's step |
| PagerCode.PagerMemory.LoadAsids | src/pager.c:303 | computes the load of the byte |
| PagerCode.PagerMemory.StoreAsids | src/pager.c:303 | computes the exclusive or and the store, undoing whatever was changed since the load |
| PagerCode.PagerMemory.Terminate | src/sys_support.c:83-93 | undisturbed, terminate turns its own bit over, leaves the others and ends the process |
| PagerCode.PagerMemory.RefillHandler | src/kernel.c:176-198 | computes a refill, the stack's page included |
| PagerCode.PagerMemory.TlbExcHandler | src/pager.c:122-196 | undisturbed, the handler computes the whole sequence of steps of a fault, sp_sem and both transfers' errors included; without a support structure it does nothing, and for a modification trap it ends the process |
| PagerCode.FaultAbandoned | src/pager.c:154-172 | when the read fails the page is not mapped, the process still waits and the pool is still locked |
| PagerCode.FaultServed | src/pager.c:154-196 | after it, if the read succeeded, the missing page is valid in the chosen frame, the slot names it, the TLB has it and the process goes on |
| Klog.WrapFeeds | src/klog.c:69-86 | one character more on the wrapped text is one character more on its last line |
| Klog.WrapKeepsText | src/klog.c:22-37 | wrapping loses and reorders nothing but newlines |
| Klog.NewlineSplits | src/klog.c:23-37 | a newline ends the line begun, whatever it holds, and what follows is wrapped afresh |
| Klog.FullLineThenNewline | src/klog.c:69-86 | an exactly full line that is then ended takes two rows, the second empty |
| Klog.Log.NextLine | src/klog.c:78-86 | the window moves on by one empty line |
| Klog.Log.NextChar | src/klog.c:69-75 | the indices stay at the open end |
| Klog.Log.KPrint | src/klog.c:23-37 | row k mod KLOG_LINES holds line k of everything printed, for each of the last KLOG_LINES lines |
| Klog.Log.KPrintInt | src/klog.c:40-53 | the sign, then the digits backwards; for the smallest int "-(" |
| Klog.PrintedReads | src/klog.c:40-53 | what it prints is digits that read backwards as the number's size, after the sign, if and only if the number is not the smallest int |
| Klog.Log.KPrintHex | src/klog.c:56-65 | the hexadecimal digits backwards |
| Klog.BackwardsReads | src/klog.c:40-65 | what is printed, read backwards, is the number, without leading zeros |
| Text.Itoa | src/utils.c:75-104 | the buffer holds the decimal notation of any int, after digit generation and reversal in place |
| Text.DecimalRoundTrip | src/utils.c:75-104 | the notation reads back as the number and has no leading zeros |
| Text.DecimalInjective | src/utils.c:75-104 | different numbers have different notations |
| Text.ReverseInPlace | src/utils.c:99-103 | the swaps reverse the first n characters and touch no others |
| Text.Strcat | src/utils.c:106-118 | the target holds the two strings one after the other, also when the first is the target itself |
| Text.DbgVar | src/utils.c:55-64 | the log grows by ">", the name, " : ", the value in decimal and a newline |

## Left out

* Saved processor states (memcpy of `state_t`), status bits, program counters and timers; of the registers only v0 is modelled.
* `LDST`, `LDCXT`, `WAIT`, `HALT`, `PANIC` end a step; `TLBP`, `TLBWI`, `TLBWR` and flash transfers are effects on the modelled TLB, frames and blocks.
* The master semaphore, whose V is commented out (src/sys_support.c:88-89).
* `search_by_pid` as a test of validity: an id that is no block's address, for which `kill_parent_and_progeny` gets a null pointer, and the address one past the table, which it accepts.
* The terminal and printer system calls of `sys_support.c`, their character loops and addresses; only the brackets they are in.
* `init_proc.c`, the test programs, the build.
* An asid above `UPROCMAX` and a frame number out of range, for which the pager panics; `PagerCode` calls neither.
* Kernel.Nucleus.IsAlive: for a block whose id is its address; other ids do not occur.
* PagerCode.PagerMemory.TlbExcHandler: the class runs the handler undisturbed; interleavings are what `PagerInvariant.StepSound` and `PagerInvariant.StepInv` are about.
* PagerCode.PagerMemory.Terminate: likewise; another process's steps may come between `LoadAsids` and `StoreAsids`.
* Kernel.Nucleus.ExceptionHandler: tame exceptions only; after the two others the links no longer form the rings the class is about (`Kernel.Nucleus.TerminateFree`, `NucleusTheorems.DoubleCompletionBreaks`).
* Kernel.Nucleus.KillParentAndProgeny: a live block; for a freed one see `Kernel.Nucleus.TerminateFree`.
* NucleusStep.Possible: no NSYS2 on a block never allocated and no NSYS5 with an address in no register.
* Text.DbgVar: names for which name, " : " and value do not fit the 2048-character buffer are excluded, because the C code overflows it.
