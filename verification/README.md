# A verified model of the AxiomRT microkernel

AxiomRT is a small RISC-V microkernel. This project models the parts of it that
carry state and order, and proves what they keep: the Sv39 table builder and the
simple page table it must refine, the frame lifecycle across address spaces, the
on-target dispatcher (tasks, endpoints, deferred messages, interrupt routes,
watchdog, preemption), the ready queue, the application image record, the monitor
line with its host parser, and the fault report path.

Code that computes is modelled by functions and lemmas. Code that updates state in
place is modelled twice: a function from old state to new state, about which the
properties are proved, and a class or method with loops whose contract says that it
computes that function.

## The parts

**Paging** (`Sv39`, `Paging`, `PagingTree`, `PagingHistory`, `PagingFit`,
`PagingArena`, `HardwareWalk`, `AddressSpaces`). Page table entries are 64-bit numbers with their bit fields read
by division. The arena of tables is a sequence of 512-entry tables with pointers
encoded as entries. A labelling of tables by paths, threaded through the lemmas,
says that the arena is a tree. From it follow the exact outcome of every `map_page`
call, the point update at all addresses, atomicity of failures, exact table
accounting, and the shape of a whole service address space. `HardwareWalk` is the
processor's own walk, written from the bit numbers of the RISC-V privileged
architecture; what the builder stores makes it see what `translate` says.

**Memory** (`Memory`, `MemoryObjects`, `MemoryRuns`, `MemoryOutcomes`, `Refinement`).
The simple page table and frame lifecycle, an invariant over runs that mix many
tables and frames, what each operation answers and leaves with its windows written
out, where an owner comes from, and the simulation between the simple page table and
the arena.

**Dispatcher** (`Dispatch` and the modules starting with its name). One state
machine: an event is a system call, a timer tick or a fault; the spin loops are
terminal states. A journal records staged, delivered, dropped and copied messages
and given device events; it is a history variable that no transition reads. The
theorems quantify over every event sequence from every booted state.
`DispatchOutcomes` gives the whole state every call, tick and fault leaves, in the
numbers of the interface and without the handlers. `Dispatcher` holds the class that
does the same steps in place.

**Ready queue** (`ReadyOrder`, `ReadyQueue`). Eight ring buffers against one
arrival-ordered sequence.

**Records and lines** (`ImageRecord`, `MonitorLine`, `EventLog`,
`MonitorRoundTrip`, `MonitorReading`). The image record validator, code by code,
against its grammar, and the kernel's admission rule; the monitor line renderer
against the host log parser, and against a reader of numbers and words of its own.

**Fault reports** (`Fault`, `FaultWire`, `Rendezvous`, `FaultChannel`). Encoding,
rendezvous behind capability lookup, decoding, and runs of everything that can
happen on the channel.

## Where the code and its documents differ

The model follows the code.

- Sender-first messages wait in one shared buffer. A later send that passes its
  checks overwrites it, so the receiver can get other bytes than were sent.
  `SenderFirstCanCorrupt` is a three-step run in which it does;
  `SenderFirstExactIff` says exactly when it does not.
- A send is said to succeed once its message is copied to the receiver, and a failed
  receive never to consume it. When the waiting receiver asked for less than is sent,
  the sender is told the full length, the receiver is woken with an error, and the
  message is gone (`SendLosesIff`, `SendLosesMessage`).
- A device event is said to be dropped when its receiver stops. `sys_exit` does not
  drop it; a kill and a fault do (`StopDropsEventUnlessExit`). `ExitKeepsStaleEvent` is
  a run in which the restarted driver is given the event of its former life. Restart
  re-arms live tasks too, and a driver so reset keeps its pending event
  (`RearmKeepsEvent`).
- A raised event is said to be held for a driver that is alive. It is lost, with the
  result for a dead driver, when another task waits on the endpoint or the driver waits
  with a zero-length buffer (`RaiseOutcome`, `LiveDriverLosesEvent`).
- A notice to a receiver that waits with a zero-length buffer unparks it but leaves
  it blocked (`NoticeWakesIffRoom`), so a blocked task need not be parked, and nothing
  short of task control wakes it again (`WhatStrands`, `StrandedStays`,
  `WatcherIsStranded`).
- A fault event is said to be handed to a supervisor that already waits. It is marked
  delivered, but the message is discarded and no poll ever reports it
  (`ReportedIffIdle`, `HandedEventIsLost`, `PollThenNotifyThenPoll`).
- A `map_page` call that runs out of tables keeps the one it linked first, so failed
  calls can use up the arena (`MapPageOutcome`), but they never change a translation
  (`MapPageIsPointUpdate`).
- A record under another name than the one asked for is documented as not found; the
  validator answers that it is a bad image (`GrammaticalVerdict`). A well-formed number
  that is 2^64 - 1 modulo 2^64 is answered as malformed, being the parser's own mark.
- The record validator wraps its numbers modulo 2^64, so the grammar is stated with
  numbers so reduced. `HugeTextIsAccepted` is a record with a text size far above the
  documented bound; `BoundsHoldIff` says exactly when the bounds hold as written.
- `leaf` takes frames of any 64-bit address. From 2^56 on the page number runs into
  reserved bits: `translate` answers modulo 2^56 and the processor faults
  (`HardwareAgrees`). It also faults on addresses that are not sign-extended 39-bit
  ones, which the software walk reduces (`WalkRepeats`).
- The renderer's comment estimates the longest line at about 130 bytes; the bound
  proved is 154, attained (`LongestIs154`) and still below the writable 181.
- The supervisor's policy names critical deadline and capability faults, which the
  decoder never lets through; `DecideIsDefault` gives the exact condition under
  which the two policies agree.

## Model

| member | source | states |
|---|---|---|
| Sv39.LeafRoundTrip | kernel/src/arch/riscv64/sv39.rs:83-135 | A leaf is built exactly for an aligned frame and encodable permissions; reading its bits gives back R, W, X, U and the frame modulo 2^56. |
| Sv39.LeafBits | kernel/src/arch/riscv64/sv39.rs:15-117 | Every bit of a leaf by its number: V, A and D set, R, W, X and U in bits 1 to 4 as asked, G and the software bits clear, and the page number from bit 10. |
| Sv39.LeafRefusals | kernel/src/arch/riscv64/sv39.rs:83-104 | Each refusal of a leaf with its exact condition. |
| Sv39.PointerBits | kernel/src/arch/riscv64/sv39.rs:73-78 | A pointer has bit 0 set, bits 1 to 9 clear and the table's page number from bit 10. |
| Sv39.SatpNamesRoot | kernel/src/arch/riscv64/sv39.rs:137-140 | The root word selects Sv39, carries no tag and names the table, exactly if the table has a 56-bit address. |
| Sv39.PointerRoundTrip | kernel/src/arch/riscv64/sv39.rs:62-78 | A pointer to an aligned table is valid, is not a leaf, and reads back as the table's address modulo 2^56. |
| Paging.PointerToTable | kernel/src/arch/riscv64/paging.rs:81-109 | The entry written for table k is a pointer into the arena that decodes to index k. |
| PagingTree.FreshIsTree | kernel/src/arch/riscv64/paging.rs:69-78 | A new arena with a zero root is a tree of one table and translates nothing. |
| PagingTree.OneParent | kernel/src/arch/riscv64/paging.rs:95-147 | Every table after the root is the target of exactly one pointer entry, from the level just above. |
| PagingTree.DescendKeepsTree | kernel/src/arch/riscv64/paging.rs:126-140 | One step of the walk follows or links a table, keeps the tree, and fails only with a full arena. |
| PagingTree.DescentOutcome | kernel/src/arch/riscv64/paging.rs:125-140 | The two-level walk fails exactly when the missing tables do not fit, uses exactly the missing tables, and changes no leaf even when it fails half way. |
| PagingTree.FillIsPointUpdate | kernel/src/arch/riscv64/paging.rs:141-147 | Writing a leaf changes the one leaf of its index triple. |
| PagingTree.SamePath | kernel/src/arch/riscv64/paging.rs:125-140 | Two index pairs never lead to one bottom table. |
| PagingTree.MapPageOutcome | kernel/src/arch/riscv64/paging.rs:114-147 | The result of every call, in order of precedence, from alignment, permissions, room and the old translation alone; exact tables used; UnexpectedLeaf never. |
| PagingTree.MapPageIsPointUpdate | kernel/src/arch/riscv64/paging.rs:111-176 | After success the page translates to pa plus offset with the permissions and every other page as before; after any failure every address translates as before; the tree is kept. |
| PagingTree.MapPageStores | kernel/src/arch/riscv64/paging.rs:141-147 | After success the word the walk reaches for the page is exactly the leaf built for it; every other word reached is as before. |
| PagingHistory.AfterTranslates | kernel/src/arch/riscv64/paging.rs:114-176 | After any calls from any tree, an address translates as at the start if mapped then, otherwise as the accepted call that covers it. |
| PagingHistory.HistoryIsFiniteMap | kernel/src/arch/riscv64/paging.rs:114-176 | A history from a fresh arena is the finite map of its accepted calls. |
| PagingHistory.MappedIsFinal | kernel/src/arch/riscv64/paging.rs:141-147 | A mapped page is never remapped by later calls. |
| PagingHistory.UnexpectedLeafUnreachable | kernel/src/arch/riscv64/paging.rs:126-140 | No history from a fresh arena makes map_page report UnexpectedLeaf. |
| PagingHistory.HistoryAccounting | kernel/src/arch/riscv64/paging.rs:95-147 | Used tables are one plus linked middle and bottom tables; after accepted calls only, one plus the distinct top indices plus the distinct top index pairs. |
| PagingArena.MapAllOk | kernel/src/arch/riscv64/paging.rs:180-192 | Mapping pages until the first error succeeds exactly when every call is accepted, and then does what the history does. |
| PagingArena.MapAllSplits | kernel/src/arch/riscv64/paging.rs:180-192 | Mapping one list after another is mapping their concatenation. |
| PagingFit.AcceptedIffFits | kernel/src/arch/riscv64/paging.rs:114-147 | From a fresh arena a list of requests succeeds as a whole exactly if each is aligned and encodable, no two are for one page, and root, middle and bottom tables fit. |
| HardwareWalk.HardwareAgrees | kernel/src/arch/riscv64/paging.rs:151-176 | The processor's walk of a built arena finds, at every canonical address, exactly the leaf word the software walk reaches, and faults if there is none, if it uses reserved bits, or at any other address. |
| HardwareWalk.HardwareSeesHistory | kernel/src/arch/riscv64/paging.rs:114-176 | After any calls from a fresh arena the processor sees exactly the accepted call that covers an address, with its frame and accesses, if the frame has a 56-bit address. |
| PagingArena.Arena.constructor | kernel/src/arch/riscv64/paging.rs:69-78 | The arena takes its tables as they are, with one in use. |
| PagingArena.Arena.Alloc | kernel/src/arch/riscv64/paging.rs:95-103 | Zeroes and hands out the next table, or changes nothing when none is left. |
| PagingArena.Arena.Enter | kernel/src/arch/riscv64/paging.rs:126-140 | One step of the walk, in place. |
| PagingArena.Arena.Finish | kernel/src/arch/riscv64/paging.rs:141-147 | Writes the leaf unless the slot is taken, in place. |
| PagingArena.Arena.MapPage | kernel/src/arch/riscv64/paging.rs:114-147 | The loop over levels, in place, has the specified result and state, and every table index stays in range. |
| PagingArena.Arena.Translate | kernel/src/arch/riscv64/paging.rs:151-176 | The software walk computes the specified translation. |
| PagingArena.Arena.IdentityMapRange | kernel/src/arch/riscv64/paging.rs:180-192 | Maps the pages of the range onto themselves in order until the first error; the address counter overflows exactly after a full success that reaches the last page of the 64-bit space. |
| AddressSpaces.WrappedRangeFails | kernel/src/arch/riscv64/paging.rs:180-192 | A range taken on from address 0 where its counter wraps always ends in an error, at the latest at the page that repeats its first. |
| AddressSpaces.SamePageBelow39 | kernel/src/arch/riscv64/paging.rs:61-63 | Below 2^39 the index triple identifies the page. |
| AddressSpaces.WalkRepeats | kernel/src/arch/riscv64/paging.rs:61-63 | From 2^39 on the indices repeat, so every address translates as its low 39 bits do. |
| AddressSpaces.MappedAsRequested | kernel/src/arch/riscv64/paging_hw.rs:77-112 | In an arena built by accepted requests every requested page translates as requested. |
| AddressSpaces.MappedOnlyAsRequested | kernel/src/arch/riscv64/paging_hw.rs:77-112 | And nothing else translates. |
| AddressSpaces.ServiceSpace | kernel/src/arch/riscv64/paging_hw.rs:255-331 | A service space builds exactly if its requests fit; then at every address the user bit is on exactly the text pages (R,X), rodata pages (R) and the stack page (R,W), each at its physical place, the kernel's regions and device pages are mapped onto themselves with their own accesses, and no translation is writable and executable. |
| AddressSpaces.HardwareSeesServiceSpace | kernel/src/arch/riscv64/paging_hw.rs:255-331 | At every address of the lower half the processor sees the service space as laid out. |
| AddressSpaces.MapKernelRegions | kernel/src/arch/riscv64/paging_hw.rs:77-112 | Maps the kernel's regions in order, in place, and reports whether all were accepted. |
| AddressSpaces.BuildServiceAddressSpace | kernel/src/arch/riscv64/paging_hw.rs:255-331 | Builds the space exactly if its requests fit, with that layout at every address, and returns root, entry and stack top; otherwise none. |
| MemoryObjects.PhysicalFrame.Allocate | kernel/src/memory/frame.rs:91-104 | Allocation from the free pool only, to a real owner only, in place. |
| MemoryObjects.PhysicalFrame.MarkMapped | kernel/src/memory/frame.rs:109-118 | Allocated to mapped with the same owner, exactly from Allocated, or the error and no change. |
| MemoryObjects.PhysicalFrame.MarkUnmapped | kernel/src/memory/frame.rs:121-130 | Mapped to allocated with the same owner, exactly from Mapped, or the error and no change. |
| MemoryObjects.PhysicalFrame.Release | kernel/src/memory/frame.rs:135-146 | Only an allocated frame returns to the pool. |
| MemoryObjects.PhysicalFrame.Quarantine | kernel/src/memory/frame.rs:149-158 | Only an allocated or mapped frame is quarantined, and keeps its owner. |
| MemoryObjects.PageTableObject.Lookup | kernel/src/memory/pagetable.rs:149-154 | The scan finds the first entry that covers the address. |
| MemoryObjects.PageTableObject.Map | kernel/src/memory/pagetable.rs:179-241 | The checks in order, then table entry and frame together, or neither changed. |
| MemoryObjects.PageTableObject.Unmap | kernel/src/memory/pagetable.rs:244-261 | Clears the entry and leaves the frame allocated to the same owner, or changes neither. |
| MemoryRuns.StepKeepsInv | kernel/src/memory/pagetable.rs:156-261 | Every operation on any table and frame keeps the memory invariant. |
| MemoryRuns.MemoryGuarantee | kernel/src/memory/frame.rs:91-158 | Over every run and many tables: one mapping per frame anywhere, owned by its table or the kernel; free and merely allocated frames mapped nowhere; mapped frames mapped; user mappings W^X, in the window, outside kernel RAM. |
| MemoryOutcomes.AllocateOutcome | kernel/src/memory/frame.rs:91-104 | A free frame, and only one, goes to a real owner that asks; each refusal with its code and no change. |
| MemoryOutcomes.FrameOutcomes | kernel/src/memory/frame.rs:109-158 | Mapping, unmapping, freeing and quarantining by the frame's state: the new state, the owner kept or given up, each refusal with its code. |
| MemoryOutcomes.MapAcceptedIff | kernel/src/memory/pagetable.rs:179-241 | A mapping is accepted exactly if aligned, with lawful access, in its window and outside kernel RAM, of a frame its address space or the kernel owns and that is only allocated, to a free page with a free slot. |
| MemoryOutcomes.MapRefusals | kernel/src/memory/pagetable.rs:156-241 | A refused mapping changes nothing and is answered by the first rule it breaks. |
| MemoryOutcomes.MapEffect | kernel/src/memory/pagetable.rs:226-241 | An accepted mapping marks the frame for the same owner and changes the lookup of its page and no other. |
| MemoryOutcomes.UnmapAcceptedIff | kernel/src/memory/pagetable.rs:244-261 | Unmapping is accepted exactly if the page is mapped to that frame and the frame is Mapped; each refusal with its code and no change. |
| MemoryOutcomes.UnmapEffect | kernel/src/memory/pagetable.rs:244-261 | An accepted unmapping leaves the frame Allocated to the same owner and unmaps its page and no other. |
| MemoryOutcomes.MapThenUnmap | kernel/src/memory/pagetable.rs:179-261 | Unmapping undoes mapping: table and frame are exactly as before. |
| MemoryOutcomes.WholeRound | kernel/src/memory/frame.rs:91-146 | Allocated, mapped, unmapped and freed, a frame is the free frame it was, and it cannot be freed while mapped. |
| MemoryOutcomes.OwnerWasAllocated | kernel/src/memory/frame.rs:91-146 | Over every run from a free pool, who owns a frame got it by an allocation in that name of the then free frame, and has had it ever since. |
| MemoryOutcomes.QuarantineIsFinal | kernel/src/memory/frame.rs:149-158 | A quarantined frame is unchanged by every run. |
| Refinement.ArenaAcceptsWhatSimpleDoes | kernel/src/memory/pagetable.rs:179-241 | When the two agree and the simple table accepts, the arena refuses only write without read and lack of room. |
| Refinement.StepAgrees | kernel/src/arch/riscv64/paging.rs:114-147 | A call both accept keeps them in agreement. |
| Refinement.Simulation | kernel/src/memory/pagetable.rs:149-241 | After any history both accept, lookup and translate agree at every address up to the device flag. |
| DispatchInvariant.SelectHighestIsBest | kernel/src/arch/riscv64/dispatch.rs:431-446 | The scan returns the ready task of highest priority, the cyclically nearest among equals, and none exactly when none is ready. |
| DispatchInvariant.StepKeeps | kernel/src/arch/riscv64/dispatch.rs:592-977 | Every event keeps the dispatcher's inductive invariant. |
| DispatchInvariant.DispatcherInvariant | kernel/src/arch/riscv64/dispatch.rs:504-977 | In every reachable state: until halted exactly the current task runs; a parked party is blocked and parked once; a staged message's task is ready; staged and awaited buffers lie in the user window within 128 bytes; a pending device event's receiver is neither parked on its endpoint nor faulted. |
| DispatchSchedule.DecisionIsTop | kernel/src/arch/riscv64/dispatch.rs:676-832 | After every tick and every yielding, blocking, exiting, self-killing or faulting step the running task is outranked by no ready task. |
| DispatchSchedule.DecisionComesCloser | kernel/src/arch/riscv64/dispatch.rs:431-446 | Each decision that passes over an unoutranked ready task shrinks its cyclic distance. |
| DispatchSchedule.ChosenInTime | kernel/src/arch/riscv64/dispatch.rs:431-446 | While such a task waits, fewer decisions than its distance, at most the number of slots, can pass. |
| DispatchSchedule.TickProgress | kernel/src/arch/riscv64/timer.rs:72-86 | A tick does exactly one of: retire the running task after a full window, switch to a higher priority, or count one miss. |
| DispatchSchedule.TickDecreasesLexicographically | kernel/src/arch/riscv64/dispatch.rs:740-796 | Each surviving tick decreases live tasks, headroom above the running priority, and the rest of the window, lexicographically. |
| DispatchSchedule.TimerBound | kernel/src/arch/riscv64/dispatch.rs:763-796 | Without system calls at most five times the live tasks ticks pass before the machine halts. |
| DispatchSchedule.MissBounded | kernel/src/arch/riscv64/dispatch.rs:763-796 | In every run the miss count of a live machine stays within the window. |
| DispatchSchedule.TicksHaltTheMachine | kernel/src/arch/riscv64/dispatch.rs:709-796 | From every reachable state, more ticks than that end in the idle halt. |
| DispatchDelivery.RunBalanced | kernel/src/arch/riscv64/dispatch.rs:548-566 | Every run keeps each task's pending slot equal to what the journal says is outstanding. |
| DispatchDelivery.Conservation | kernel/src/arch/riscv64/dispatch.rs:838-977 | For every task, staged messages equal delivered plus dropped plus pending, and the delivery counter counts the deliveries. |
| DispatchDelivery.DeliveryIsExact | kernel/src/arch/riscv64/dispatch.rs:548-566 | Every delivery hands over exactly the bytes and address of the staging it answers, with nothing for that task between. |
| DispatchProvenance.DeliveryComesFromSend | kernel/src/arch/riscv64/dispatch.rs:548-902 | In every run, what is copied at resume was staged at an earlier step with the bytes the sender's buffer held at that step, or is the device event or fault notice of that step; nothing for the task happened between. |
| DispatchProvenance.EntryIsExplained | kernel/src/arch/riscv64/dispatch.rs:592-1299 | Every journal entry of a run has its cause in the state before the step that wrote it. |
| DispatchProvenance.StepExplains | kernel/src/arch/riscv64/dispatch.rs:838-1299 | Every journal entry has its cause: staged bytes are the sender's at send time or a kernel notice, drops are kills or re-arms, and only the registered receiver is given a device event. |
| DispatchProvenance.EventStaysPending | kernel/src/arch/riscv64/dispatch.rs:1195-1280 | A pending device event stays pending exactly until it is given to its registered receiver, or that receiver faults, is killed, or was killed and a raise of that device finds it so. |
| DispatchAuthority.SyscallConfined | kernel/src/arch/riscv64/dispatch.rs:369-427 | A system call changes an endpoint only as a send under Send on it in the slot named, a receive under Receive, a raise under driver control routed to it, or under Control over the parked task; capability tables change only on a first start, to the table of the service asked for. |
| DispatchAuthority.InterruptConfined | kernel/src/arch/riscv64/dispatch.rs:1529-1571 | Ticks and faults touch only the fault and event endpoints, by waking a receiver, and no capability. |
| DispatchAuthority.AuthorityConfinement | kernel/src/arch/riscv64/dispatch.rs:1719-1773 | In every run a caller that changes an endpoint is entitled by capabilities it had at boot or from its service entry. |
| DispatchStaging.SenderFirstExactIff | kernel/src/arch/riscv64/dispatch.rs:838-977 | A sender-first receive gets the sent bytes exactly when the sends that passed their checks in between leave every byte as it was; in particular when there were none. |
| DispatchStaging.SenderFirstCanCorrupt | kernel/src/arch/riscv64/dispatch.rs:838-977 | A booted machine and three calls in which the receiver gets another sender's byte. |
| DispatchStaging.PassingSend | kernel/src/arch/riscv64/dispatch.rs:838-902 | A send that passes its checks is staged, lost with success, parked or refused, by what waits on its endpoint, with answer, endpoint, journal and receiver of each. |
| DispatchStaging.RefusedSend | kernel/src/arch/riscv64/dispatch.rs:838-865 | A send that fails a check changes no task, endpoint, journal or buffer and is answered with an error. |
| DispatchStaging.SendLosesIff | kernel/src/arch/riscv64/dispatch.rs:868-890 | A message is lost while its sender is told its length exactly if it passes its checks and the waiting receiver asked for less. |
| DispatchExamples.SendLosesMessage | kernel/src/arch/riscv64/dispatch.rs:884-889 | A booted run in which a sender is told two bytes were taken and the message is nowhere. |
| DispatchStaging.StopDropsEventUnlessExit | kernel/src/arch/riscv64/dispatch.rs:676-707 | When the receiver stops, by fault, exit or a kill by anyone, its pending device event survives exactly if it stopped by exit. |
| DispatchStaging.RearmKeepsEvent | kernel/src/arch/riscv64/dispatch.rs:2032-2059 | Starting or re-arming a task, live ones included, never takes a pending device event. |
| DispatchExamples.ExitKeepsStaleEvent | kernel/src/arch/riscv64/dispatch.rs:685-689 | A booted run in which an event raised for a driver that exits is given to the restarted driver. |
| DispatchStaging.RaiseOutcome | kernel/src/arch/riscv64/dispatch.rs:1195-1243 | A raised event is given, kept or lost, each with its exact condition; with a live receiver it is lost exactly if another task, or the receiver with no room, waits on the endpoint and none was pending. |
| DispatchExamples.LiveDriverLosesEvent | kernel/src/arch/riscv64/dispatch.rs:1215-1233 | A booted run in which a live, waiting driver loses an event. |
| DispatchStops.WhatStops | kernel/src/arch/riscv64/dispatch.rs:676-832 | A task stops only by running into a fault, by exiting, or by a kill under Control. |
| DispatchStops.OthersUnhindered | kernel/src/arch/riscv64/dispatch.rs:838-1299 | A step does no more to another task than wake it off an endpoint or run it, unless it is task control over it. |
| DispatchStops.StrandedStays | kernel/src/arch/riscv64/dispatch.rs:1529-1547 | A task blocked and parked nowhere stays so through every run without task control over it. |
| DispatchStops.WhatStrands | kernel/src/arch/riscv64/dispatch.rs:763-832 | A step strands a task exactly if it contains a fault while the task waits with no room on the fault or event channel. |
| DispatchStaging.NoticeWakesIffRoom | kernel/src/arch/riscv64/dispatch.rs:1529-1547 | A notice makes a parked receiver ready exactly if its buffer has room, unparks it either way, and otherwise strands it. |
| DispatchExamples.WatcherIsStranded | kernel/src/arch/riscv64/dispatch.rs:1529-1547 | A booted run that leaves the receiver of fault notices blocked and parked nowhere, and so in every continuation. |
| DispatchContext.StepKeepsContext | kernel/src/arch/riscv64/dispatch.rs:548-760 | No step changes a stopped task's saved registers except its result register, unless it re-arms the task. |
| DispatchContext.ContextSurvives | kernel/src/arch/riscv64/dispatch.rs:548-760 | Over every run until it is next current, a task resumes with the registers it stopped with, result register aside. |
| DispatchContext.StopSavesFrame | kernel/src/arch/riscv64/dispatch.rs:676-760 | A task that yields, blocks or is preempted is saved with exactly the registers it trapped with. |
| DispatchContext.ResumesWhereItStopped | kernel/src/arch/riscv64/dispatch.rs:548-760 | From trap to resume over every run: a stopped task next runs with the registers it trapped with, result register aside. |
| DispatchOutcomes.RescheduleOutcome | kernel/src/arch/riscv64/dispatch.rs:431-737 | The processor goes to the best ready task, with its registers, its staged message delivered and counted and the length in a0, or halts when none is ready; nothing else changes. |
| DispatchOutcomes.YieldAndExitOutcome | kernel/src/arch/riscv64/dispatch.rs:676-707 | Yield leaves the caller Ready with its registers saved, exit leaves it Killed, and the processor is handed over. |
| DispatchOutcomes.DeniedOutcome | kernel/src/arch/riscv64/dispatch.rs:369-396 | A send or receive without the right in the slot named changes nothing and is answered -2, -4 or -3 by what the slot holds. |
| DispatchOutcomes.SendOutcome | kernel/src/arch/riscv64/dispatch.rs:838-902 | The whole state a granted send leaves: refused -6 over 128 bytes and -5 outside the windows; staged to a waiting receiver with room, or that one woken with -6; parked; or -5 behind another sender. |
| DispatchOutcomes.ReceiveEventOutcome | kernel/src/arch/riscv64/dispatch.rs:906-931 | A receive with an event kept for the caller takes it with the answer 1, clears it and notes it, or is refused -5 without room. |
| DispatchOutcomes.ReceiveOutcome | kernel/src/arch/riscv64/dispatch.rs:906-977 | The whole state a granted receive leaves: from a parked sender the staged bytes, both told the length, the sender Ready and the endpoint idle; parked if nobody is there; -5 without room or behind another receiver. |
| DispatchOutcomes.DeliveredIsAnswered | kernel/src/arch/riscv64/dispatch.rs:548-566 | Whatever the step, a task it delivers a message to runs now, with that message's length in a0 and nothing left staged. |
| DispatchOutcomes.RaiseDeniedOutcome | kernel/src/arch/riscv64/dispatch.rs:1035-1100 | A raise without driver control of a device changes nothing and is answered -2, -4 or -3 by what the slot holds. |
| DispatchOutcomes.RaiseCallOutcome | kernel/src/arch/riscv64/dispatch.rs:1195-1299 | The whole state a granted raise leaves, by receiver and endpoint, with the answers 0 given, 1 kept and -7 lost. |
| DispatchOutcomes.NoControlOutcome | kernel/src/arch/riscv64/dispatch.rs:1683-1698 | Start, kill, restart and shutdown without Control change nothing and are answered -2. |
| DispatchOutcomes.StartOutcome | kernel/src/arch/riscv64/dispatch.rs:1719-1773 | A start puts a service in its empty slot with its entry's table, priority, space, fresh registers and device subscriptions, renews a stopped one, and is refused -7 if alive and -5 if not listed. |
| DispatchOutcomes.GrantedRoutesExactly | kernel/src/arch/riscv64/dispatch.rs:1101-1140 | The starting task becomes receiver of exactly the devices its table subscribes it to; pending events are untouched. |
| DispatchOutcomes.KillOutcome | kernel/src/arch/riscv64/dispatch.rs:2000-2030 | A kill leaves the task Killed, parked nowhere, with nothing staged or kept for it; killing oneself hands over the processor; -5 for a slot that holds no task. |
| DispatchOutcomes.RestartOutcome | kernel/src/arch/riscv64/dispatch.rs:2032-2059 | A restart makes any other started task Ready with fresh registers at its entry and stack, parked nowhere and with nothing staged, keeping table, priority and space; exactly otherwise -5 and no change. |
| DispatchOutcomes.ShutdownOutcome | kernel/src/arch/riscv64/dispatch.rs:2061-2083 | Shutdown under Control powers the machine off. |
| DispatchOutcomes.OtherCallOutcome | kernel/src/arch/riscv64/dispatch.rs:592-673 | Any other call leaves its own result in a0 and nothing else but the cleared miss count. |
| DispatchOutcomes.FaultOutcome | kernel/src/arch/riscv64/dispatch.rs:804-832 | A fault leaves the task Faulted, its events dropped, byte 4 staged for who waits with room on endpoints 2 and 3, both unparked, and the processor handed over. |
| DispatchOutcomes.TickOutcome | kernel/src/arch/riscv64/timer.rs:72-86 | The fifth tick in a row without a call is a fault; before that the best ready task takes over exactly if one outranks the running task, and otherwise one miss is counted. |
| Dispatcher.Machine.SelectHighest | kernel/src/arch/riscv64/dispatch.rs:431-446 | The loop over slots computes the specified choice. |
| Dispatcher.Machine.ResumeTask | kernel/src/arch/riscv64/dispatch.rs:548-566 | In place: resume, with deferred delivery. |
| Dispatcher.Machine.Reschedule | kernel/src/arch/riscv64/dispatch.rs:676-737 | In place: pick and resume the next task, or halt idle. |
| Dispatcher.Machine.Switch | kernel/src/arch/riscv64/dispatch.rs:676-707 | In place: yield and exit. |
| Dispatcher.Machine.BlockAndSwitch | kernel/src/arch/riscv64/dispatch.rs:719-737 | In place: block the caller and switch. |
| Dispatcher.Machine.Preempt | kernel/src/arch/riscv64/dispatch.rs:740-760 | In place: switch only to a higher priority, saving the preempted registers. |
| Dispatcher.Machine.WatchdogTick | kernel/src/arch/riscv64/dispatch.rs:763-796 | In place: count, and contain the running task when the window is exceeded. |
| Dispatcher.Machine.OnTimerInterrupt | kernel/src/arch/riscv64/timer.rs:72-86 | In place: watchdog first, then preemption unless it fired. |
| Dispatcher.Machine.ContainFault | kernel/src/arch/riscv64/dispatch.rs:804-832 | In place: retire the task, drop its events, notify, switch. |
| Dispatcher.Machine.CopyFromUser | kernel/src/arch/riscv64/dispatch.rs:514-522 | The byte loop overlays the shared buffer with the user's bytes. |
| Dispatcher.Machine.IpcSend | kernel/src/arch/riscv64/dispatch.rs:838-902 | In place: the send path whose outcomes are those of `SendOutcome` and `DeniedOutcome`. |
| Dispatcher.Machine.IpcRecv | kernel/src/arch/riscv64/dispatch.rs:906-977 | In place: the receive path whose outcomes are those of `ReceiveOutcome`, `ReceiveEventOutcome` and `DeniedOutcome`. |
| Dispatcher.Machine.AnnounceDeviceGrants | kernel/src/arch/riscv64/dispatch.rs:1101-1140 | The capability loop registers the slot as receiver of its devices' events. |
| Dispatcher.Machine.IrqRaise | kernel/src/arch/riscv64/dispatch.rs:1195-1243 | In place: deliver, keep pending, or drop a device event. |
| Dispatcher.Machine.IrqPendingFor | kernel/src/arch/riscv64/dispatch.rs:1247-1259 | The loop finds the first pending event for the task on the endpoint. |
| Dispatcher.Machine.IrqDropForTask | kernel/src/arch/riscv64/dispatch.rs:1264-1280 | The loop clears every pending event of the task. |
| Dispatcher.Machine.SysIrqRaise | kernel/src/arch/riscv64/dispatch.rs:1286-1299 | In place: the device capability check and the raise. |
| Dispatcher.Machine.NotifyEndpoint | kernel/src/arch/riscv64/dispatch.rs:1529-1547 | In place: a one-byte kernel notice to a waiting receiver. |
| Dispatcher.Machine.CapFind | kernel/src/arch/riscv64/dispatch.rs:1683-1688 | The scan finds whether the task holds the authority. |
| Dispatcher.Machine.EpClearForTask | kernel/src/arch/riscv64/dispatch.rs:416-427 | The loop unparks the task everywhere. |
| Dispatcher.Machine.SysTaskStart | kernel/src/arch/riscv64/dispatch.rs:1719-1773 | In place: first start from the service table, re-arm of a stopped one, refusals, with the outcome of `StartOutcome`. |
| Dispatcher.Machine.SysTaskKill | kernel/src/arch/riscv64/dispatch.rs:2000-2030 | In place: kill another task or oneself, with the outcome of `KillOutcome`. |
| Dispatcher.Machine.SysTaskRestart | kernel/src/arch/riscv64/dispatch.rs:2032-2059 | In place: re-arm any started task but the caller, live or stopped, with the outcome of `RestartOutcome`. |
| Dispatcher.Machine.SysShutdown | kernel/src/arch/riscv64/dispatch.rs:2061-2083 | In place: halt under Control authority only. |
| Dispatcher.Machine.OnSyscall | kernel/src/arch/riscv64/dispatch.rs:592-673 | In place: the miss reset and the table of calls. |
| Dispatcher.Machine.OnTrap | kernel/src/arch/riscv64/dispatch.rs:592-832 | In place: one event of the state machine, so every theorem about runs holds of the object. |
| ReadyOrder.LevelsAfterPop | kernel/src/sched/queue.rs:120-128 | Taking the first entry of the order takes the head of the top non-empty level and leaves the others. |
| ReadyOrder.LevelsAfterRemove | kernel/src/sched/queue.rs:132-134 | Removing a thread from the order removes it from its level and keeps every order. |
| ReadyOrder.SelectIsFirstReady | kernel/src/sched/mod.rs:63-74 | Selection returns the earliest-queued ready entry of the highest priority that has one, discards exactly the stale entries ahead of it and keeps the rest in order; none exactly when none is ready. |
| ReadyQueue.Fifo.PushBack | kernel/src/sched/queue.rs:43-51 | The ring appends unless full. |
| ReadyQueue.Fifo.PopFront | kernel/src/sched/queue.rs:53-61 | The ring gives up its oldest element. |
| ReadyQueue.Fifo.Contains | kernel/src/sched/queue.rs:63-65 | Membership. |
| ReadyQueue.Fifo.Remove | kernel/src/sched/queue.rs:68-87 | The rebuilding loop drops the first occurrence and keeps the order. |
| ReadyQueue.ReadyQueue.Enqueue | kernel/src/sched/queue.rs:111-116 | Appends to the arrival order, refusing a queued thread and then a full level. |
| ReadyQueue.ReadyQueue.PopHighest | kernel/src/sched/queue.rs:120-128 | The level loop takes the first entry of the order and keeps the rest. |
| ReadyQueue.ReadyQueue.Remove | kernel/src/sched/queue.rs:132-134 | Takes the thread out of the order wherever it is. |
| ReadyQueue.ReadyQueue.Contains | kernel/src/sched/queue.rs:136-138 | Whether the thread is in the order. |
| ReadyQueue.FixedPriorityScheduler.MarkReady | kernel/src/sched/mod.rs:50-52 | Appends the thread, refusing a queued one and then a full level, with no change. |
| ReadyQueue.FixedPriorityScheduler.MarkNotReady | kernel/src/sched/mod.rs:56-58 | Takes the thread out of the order. |
| ReadyQueue.FixedPriorityScheduler.SelectNext | kernel/src/sched/mod.rs:63-74 | The popping loop ends and computes the specified selection and remainder. |
| ImageRecord.AcceptsExactlyTheGrammar | kernel/src/arch/riscv64/os_boot.rs:909-1001 | A record is accepted exactly when some fields write it: magic, the name, four numbers, a capability word, a number and a four-digit sum, one space apart, with byte sum, layout and policy right. |
| ImageRecord.GrammaticalVerdict | kernel/src/arch/riscv64/os_boot.rs:909-1001 | A record of the grammar gets 2 if its sum is wrong, 1 if it is another image, and else the code its fields are owed: 4, 1, 3, 5 or 0 by failure mark, layout, capability word and name. |
| ImageRecord.UngrammaticalVerdict | kernel/src/arch/riscv64/os_boot.rs:909-967 | Anything else gets 4, 1 or 2 by its length, start, tail, sum and first word, and never a code about policy. |
| ImageRecord.ChainIsJoined | kernel/src/arch/riscv64/os_boot.rs:909-1001 | Cutting a byte string into spaced words and joining words are inverse. |
| ImageRecord.AcceptedIsAdmitted | kernel/src/loader/mod.rs:62-92 | The kernel admits the layout of an accepted record at exactly the bases whose span ends at or below the kernel. |
| ImageRecord.AdmittedIff | kernel/src/loader/mod.rs:62-92 | Every layout is admitted exactly within its bounds, 131072 bytes, one stack page and an end at or below 0x8000_0000, and each refusal has its exact condition. |
| ImageRecord.BoundsHoldIff | kernel/src/arch/riscv64/os_boot.rs:1724-1743 | An accepted record keeps the layout bounds as written exactly if each of its five numbers is below 2^64. |
| ImageRecord.HugeTextIsAccepted | kernel/src/arch/riscv64/os_boot.rs:909-1001 | A 54-byte record that writes a text size of 2^64 + 4096 is accepted. |
| ImageRecord.FindTokEnd | kernel/src/arch/riscv64/os_boot.rs:841-851 | The loop finds the first space or the end. |
| ImageRecord.ParseHex4 | kernel/src/arch/riscv64/os_boot.rs:858-875 | The loop reads four lower-case hex digits or reports the mark. |
| ImageRecord.DigitValues | kernel/src/arch/riscv64/os_boot.rs:858-875 | The characters 0 to 9 and a to f have the values 0 to 15. |
| ImageRecord.CkSum | kernel/src/arch/riscv64/os_boot.rs:880-889 | The wrapping loop is the byte sum modulo 2^16. |
| ImageRecord.LdNumAfter | kernel/src/arch/riscv64/os_boot.rs:895-901 | A space and a number, or the mark. |
| ImageRecord.ParseDecStop | kernel/src/arch/riscv64/os_boot.rs:1724-1743 | The wrapping loop is the decimal value modulo 2^64 of the maximal digit run. |
| ImageRecord.Eqs | kernel/src/arch/riscv64/os_boot.rs:508-521 | The comparing loop decides equality. |
| ImageRecord.LdValidate | kernel/src/arch/riscv64/os_boot.rs:909-1001 | The validator reads only inside the record, returns the specified verdict, and accepts exactly the grammar. |
| MonitorLine.TextFits | kernel/src/monitor/serial.rs:16-18 | No event's line exceeds 154 characters, less than the writable 181. |
| MonitorLine.LongestIs154 | kernel/src/monitor/serial.rs:16-18 | The bound is attained. |
| MonitorLine.GroupsText | kernel/src/monitor/serial.rs:98-121 | The pieces written, in order, make the line of type, core fields and present optional fields. |
| MonitorLine.BufWriter.WriteStr | kernel/src/monitor/serial.rs:46-58 | Appends, or fills the rest and reports; nothing beyond the limit changes. |
| MonitorLine.BufWriter.WritePieces | kernel/src/monitor/serial.rs:98-106 | Pieces in turn until one does not fit amount to one clipped write. |
| MonitorLine.RenderGroups | kernel/src/monitor/serial.rs:83-130 | The line is the whole text if it fits, otherwise what fits followed by the marker. |
| MonitorLine.Render | kernel/src/monitor/serial.rs:83-130 | Rendering never truncates: the line is the event's text, which says exactly the event (`LineSaysEvent`). |
| EventLog.ParseLine | tools/axiomctl/src/events.rs:110-172 | The token loop and the search for the type field compute the specified parse. |
| EventLog.ParseLog | tools/axiomctl/src/events.rs:175-191 | The line loop numbers events and counts skips as specified. |
| EventLog.CollectAccounts | tools/axiomctl/src/events.rs:175-191 | Every line of any text is an event, skipped or blank, and events are numbered from one. |
| EventLog.SortingAppends | tools/axiomctl/src/events.rs:143-152 | Words are sorted into flags and fields one by one, in order. |
| EventLog.SortingOne | tools/axiomctl/src/events.rs:143-152 | A word with a key before its first equals sign is that field, and any other word is a flag. |
| EventLog.HeadOfLine | tools/axiomctl/src/events.rs:128-141 | A bare key=value first word makes the line boot information with that field first; a half-empty one makes it no line. |
| EventLog.CategoriesExactly | tools/axiomctl/src/events.rs:74-104 | A line gets a category exactly if the table of kinds has it, and then that one; a fault whose type names the watchdog goes to the watchdog. |
| MonitorRoundTrip.LineRoundTrip | tools/axiomctl/src/events.rs:110-172 | Parsing a rendered event gives its kind and category, no flags and exactly its fields in order. |
| MonitorRoundTrip.TypeIsCategorized | tools/axiomctl/src/events.rs:74-104 | Each of the nine event types has its category. |
| MonitorRoundTrip.BannerIsBoot | tools/axiomctl/src/events.rs:110-126 | The boot banner, with any white space after it, is a boot event. |
| MonitorReading.DecReads | kernel/src/monitor/serial.rs:98-121 | A rendered number is digits whose positional value is the number, with no leading zero. |
| MonitorReading.LineSaysEvent | kernel/src/monitor/serial.rs:83-130 | The line of an event, parsed, says exactly that event: its numbers read digit by digit, its words by their own tables, its absent fields absent. |
| MonitorReading.SaysOnlyOne | tools/axiomctl/src/events.rs:110-172 | A line says at most one event. |
| MonitorReading.LinesAreDistinct | kernel/src/monitor/serial.rs:83-130 | Events with the same line are the same event. |
| MonitorRoundTrip.LogRoundTrip | tools/axiomctl/src/events.rs:175-191 | A log of any exported events parses to exactly those events, numbered in order, with nothing skipped. |
| FaultWire.DecodeEncode | kernel/src/fault/wire.rs:107-165 | Every event decodes from its encoding with every field equal. |
| FaultWire.EncodeDecode | kernel/src/fault/wire.rs:143-165 | A message that decodes is byte for byte the encoding of what it decodes to. |
| FaultWire.DecodeAcceptsExactly | kernel/src/fault/wire.rs:143-165 | Exactly the encodings of events are accepted. |
| FaultWire.WireBytes | kernel/src/fault/wire.rs:107-116 | Every byte of a fault message: where each field lies, least significant byte first, and the code of its type and severity. |
| FaultWire.DecodeRefusals | kernel/src/fault/wire.rs:143-165 | Each refusal of a message with its exact condition. |
| FaultWire.DefaultByCode | kernel/src/fault/wire.rs:41-52 | The kernel's default decision for each fault code. |
| FaultWire.Encode | kernel/src/fault/wire.rs:107-116 | Filling the buffer field by field makes the specified layout. |
| FaultWire.DecideIsDefault | userland/supervisor/src/lib.rs:25-40 | The supervisor decides as the kernel default exactly for user faults that are not critical deadline or capability faults. |
| FaultWire.AcceptedDecisionIsDefault | kernel/src/fault/wire.rs:41-52 | On every accepted report of a user fault the two policies agree. |
| Rendezvous.RefusalIsAuthority | kernel/src/caps/table.rs:74-93 | A checked operation reaches the endpoint exactly with the right on that very endpoint. |
| Rendezvous.LookupRefusals | kernel/src/caps/table.rs:74-93 | Each refusal of a lookup with its exact condition. |
| Rendezvous.TheyMeet | kernel/src/ipc/mod.rs:68-116 | Sender first or receiver first, the second party gets the message and the first party's name, and the endpoint is idle again. |
| Rendezvous.SecondIsRefused | kernel/src/ipc/mod.rs:68-116 | A second party of the same side is refused, as itself or as another, and changes nothing. |
| Rendezvous.CancelTakesParty | kernel/src/ipc/mod.rs:177-190 | Cancelling takes off exactly the named party with its message. |
| Rendezvous.MeetsWhoParked | kernel/src/ipc/mod.rs:68-116 | The other side gets the message and the name of the call that parked. |
| Rendezvous.WhoParked | kernel/src/ipc/mod.rs:68-190 | After any history a waiting party was parked by its own call on an idle endpoint, with that message, untouched since. |
| Rendezvous.Endpoint.SendMsg | kernel/src/ipc/mod.rs:68-89 | In place: park, hand over or refuse. |
| Rendezvous.Endpoint.RecvMsg | kernel/src/ipc/mod.rs:92-116 | In place: take, wait or refuse; the pending message always exists when a sender waits. |
| Rendezvous.Endpoint.CancelParty | kernel/src/ipc/mod.rs:177-190 | In place: remove the parked party and its message. |
| Rendezvous.Endpoint.CheckedSend | kernel/src/ipc/mod.rs:142-156 | In place: lookup, endpoint identity, then send; untouched on refusal. |
| Rendezvous.Endpoint.CheckedRecv | kernel/src/ipc/mod.rs:160-173 | In place: lookup, endpoint identity, then receive; untouched on refusal. |
| FaultChannel.StaysUnlessTaken | kernel/src/ipc/mod.rs:68-190 | With an event parked, an operation changes the channel exactly if it is an authorised receive or cancels the kernel. |
| FaultChannel.NotifyByState | kernel/src/fault/wire.rs:170-190 | A notification is queued, handed over or refused by the state of the channel, with channel and event after each. |
| FaultChannel.PollByState | userland/supervisor/src/lib.rs:58-73 | A poll is denied, finds nothing or takes and judges the message, by authority and the state of the channel. |
| FaultChannel.QueuedEventIsDelivered | userland/supervisor/src/lib.rs:58-73 | An event notified on an idle channel is queued, survives every run of other operations, and the next authorised poll gets it with every field equal and frees the channel. |
| FaultChannel.ReportedIffIdle | kernel/src/fault/wire.rs:170-190 | A new event the channel accepts reaches the next authorised poll exactly if the channel was idle. |
| FaultChannel.HandedEventIsLost | kernel/src/fault/wire.rs:173-181 | An event notified while the supervisor waits is marked delivered and leaves the channel fresh; every later report is of an event notified afterwards. |
| FaultChannel.PollThenNotifyThenPoll | userland/supervisor/src/lib.rs:58-73 | The run: poll finds nothing, notify says delivered, poll finds nothing. |
| FaultChannel.ReportsAreGenuine | kernel/src/fault/wire.rs:143-165 | In every run from a fresh channel with kernel-written senders, a report a poll yields is that of an event notified earlier in the run. |
| FaultChannel.MessagesConserved | kernel/src/ipc/mod.rs:68-190 | Over every run the messages accepted are, in order, those handed out for a waiting receiver, received or cancelled, and the one still held. |
| FaultChannel.Advance | kernel/src/fault/event.rs:129-144 | An attempt succeeds exactly one place up the lifecycle, and otherwise changes nothing. |
| FaultChannel.LifecycleClimbs | kernel/src/fault/event.rs:129-144 | Over any attempts an event climbs one place per success, at most three times, never comes back, and reports the same. |
| FaultChannel.NotifySupervisor | kernel/src/fault/wire.rs:170-190 | In place: encode, send, advance the event; no outcome exactly where the source stops on its expectation, an accepted event that is not new. |
| FaultChannel.PollFaultChannel | userland/supervisor/src/lib.rs:58-73 | In place: checked receive, decode and decide, with its three errors. |

## Left out

- PagingArena.Arena.IdentityMapRange: reports the overflow of its counter and ends there; the source stops there when overflow is checked, and when it is not goes on from address 0 into the error of `WrappedRangeFails`.
- AddressSpaces.BuildServiceAddressSpace: linker symbols are parameters, with the spans they must have as requirements.
- Refinement.Simulation: speaks of pages below 2^39 and frames below 2^56, what the entry format can hold.
- FaultChannel.ReportsAreGenuine: takes from the system call layer that user messages carry their sender and that thread 0 is the kernel's.
- `build_user_address_space`: the same requests with fixed demo regions; it would only repeat the service space.
- `unmap` has no counterpart in the arena, so the simulation is about maps.
- User memory is a function from address to byte read at send time; copying into it is a journal entry, and the gate bit around it is not modelled.
- The status register value that `start` and re-arming read is part of the configuration.
- System calls for console, information, device memory, DMA and fault acknowledgement change no modelled state and appear as a call with an arbitrary result; so does a number the dispatcher does not know and hands back to the trap layer.
- Interrupt entry and exit assembly, timer programming, console output and the event ring's text.
- The rest of `os_boot.rs`: shell, console, file, storage, driver and network loops.
- `acknowledge`, capability insertion, revocation and derivation: single-branch members.
- JSON output, summaries and the command line of `axiomctl`; the studio server.
- The formatting machinery of the language: numbers and names reach the writer as whole pieces.
- Characters are Unicode scalar values and lines are sequences of them; the byte view of the ASCII lines is not modelled.
