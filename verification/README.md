# S3K: capabilities, processes, IPC, and the bundled FAT file system

S3K is a separation kernel for RISC-V. Every right in it is a capability: time slots of a hart, memory, PMP
frames, the right to monitor processes, IPC channels and sockets. This project models the kernel's core and the
FAT layer of the FatFs copy that its exercise application ships, and proves what every run of them keeps.

**The capability system.** All capabilities of all processes sit in one array, and a circular doubly linked list
threads through the occupied entries. No tree is stored: who was derived from whom follows from list position and
from the ranges `bgn`, `mrk`, `end`. Deriving inserts right behind the parent; revoking eats the next entry as long
as a short, mostly one-sided range test holds, and can be preempted and called again. Two structures must follow
the capabilities at all times: the packed time schedule and the PMP registers of the processes.

- `Capability`, `CapList`, `CapOps`: capability words, the derivation list as a sequence cut open at the boot PMP
  entry, and the operations as functions on an abstract state. In the sequence each entry also carries its family,
  the number of the boot capability it descends from; the kernel stores no such number, and it never decides a
  branch.
- `Schedule`, `CapTable`, `Registers`, `Kernel`: the arrays in memory. The methods follow the C code and are proved
  to do what the functions of `CapOps` say.
- `Authority`: the system invariant. `ListSteps`, `Steps`, `Derivations`, `Revocation`, `Runs`: every operation and
  every single pass of the revocation loop keeps it, so every run does, from boot on. `Guarantees`: what it means.
- `Exactness`, `Preemption`, `ChannelRevocation`, `Termination`: what a complete revocation removes, what cutting and
  resuming it does, what becomes of channel records, and when the loop ends, on any ring.
- `Effects`: every capability call told by the fields of the capabilities: when it succeeds, which code it returns
  otherwise, and what every entry, register and channel record holds afterwards.
- `Platforms`, `Ties`: the boot table of one board meets the premises, a run from it in which revocation errs, and a
  run after which two harts take one process.

**Processes and IPC.** `Process`, `Traps` give traps on one hart as steps of a state machine; `TrapRuns` has the
safety of whole runs of traps. `CapCalls` shows that every capability call, a preempted revocation included, is a run
of capability operations, and `SystemRuns` joins the two. `Messages` says whom a message reaches, when a call delivers,
waits or is refused, and `Monitoring` whom a monitor can touch and when a process gets to run, both by state words,
channel records and capability fields alone. `Hart` has the imperative code, up to `trap_handler` for
every kind of trap and the scheduler's loop. `Semaphore` is the ticket semaphore, with any number of participants, and
`SemaphoreLimits` how far its promises reach.

**The FAT layer.** `FatEntry` (12-, 16- and 32-bit entries in bytes), `FatWindow` (the one-sector write-back window
over a disk that is an ideal array of sectors), `FatChains` (cluster chains as the entries spell them), `FatAlloc`
(allocating, freeing and counting clusters), `FatFile` (seeking and reading). `FatLayout` says where the entries are:
the table is one long number cut into pieces of an entry's width.

Some properties do not hold of the code as they stand; for each the condition is proved, with an input that fails:

- `cte_move` replaces an entry in place if and only if the ring has at least two entries; a single entry is left
  pointing at the emptied one (`CapTable.Table.Move`, `CapTable.LoneMoveBreaks`).
- A pass of memory revocation removes an entry that was not derived from the revoked capability if and only if the
  neighbour is a frame that begins at or above the revoked region's end, or, over the end of the list, the boot frame
  above its begin (`Authority.EatsUnlessOverreach`). A complete revocation is exact if and only if no such frame stands
  right behind what was derived, or the last derived entry ends the loop before it; otherwise it removes, besides,
  only frames above the region (`Exactness.RevokeExactIff`, `Exactness.RevokeShape`). While no head of a memory family
  is deleted it is exact (`Exactness.GuardedIsClean`, `Runs.RunKeepsRoots`); on the four-hart QEMU board, deriving a
  frame from one device region, deleting that region's capability and revoking the capability of a lower region fails
  (`Platforms.OrphanIsEaten`).
- The revocation loop ends unless it takes every other entry of the ring, none of them ends it, and the revoked entry is
  left alone with a mark above its begin, or a lock; then its handler removes it and puts it back for ever
  (`Termination.LoopEndsIff`, `Termination.LoneTimeNeverEnds`). While the boot frame stays listed it always ends
  (`Termination.RevocableEnds`).
- Two harts go on for one owner of a slot if and only if the last hart reads that owner too and its slice is longer than
  that of every lower hart that does, one of which has some left (`Schedule.TwoWinIff`); on the four-hart QEMU board,
  handing on the first slots of harts 0, 1 and 2 leads there (`Ties.LastHartTie`).
- Over all runs of the semaphore, tickets held stay within the initial count, a writer is alone, and tickets become
  eligible in order if and only if fewer than 2^64 tickets are drawn (`SemaphoreLimits.BoundLimit`,
  `SemaphoreLimits.OrderLimit`). The oldest waiter may enter once nobody holds if and only if the tickets drawn and the
  initial count together are at most 2^64 (`SemaphoreLimits.ProgressLimit`): with four harts, readers alone, one after
  the other, block the next one after 2^64 - 4 turns. For every initial count the failing runs need no other
  requests than the kernel's, one ticket or all (`SemaphoreLimits.BoundFails`, `SemaphoreLimits.ProgressFails`).
- The scan of `f_getfree` over 16- or 32-bit entries starts at entry 0, so its count is the number of free clusters
  if and only if the two reserved entries are not zero (`FatAlloc.Fs.GetFree`, `FatAlloc.BlankTableMiscounted`).

Verify everything with `dafny verify dfyconfig.toml`.

## Model

| member | source | states |
|---|---|---|
| Capability.EncodeDecode | kernel/inc/cap_util.h:20-30 | encoding what decoding gave returns every 48-bit address word; the size is a power of two of at least 8 and the base is aligned to it |
| Capability.DecodeEncode | kernel/inc/cap_util.h:20-30 | decoding what encoding gave returns every aligned power-of-two range of at least 8 bytes, over all 64-bit words |
| Capability.EncodeFits | kernel/inc/cap_types.h:87-93 | ranges below 2^50 encode into the 48-bit address field |
| Capability.TrailingOnes | kernel/inc/cap_util.h:20-25 | the encoding of section 3.7.1 of the RISC-V Privileged Architecture: k trailing ones name 2^(k+3) bytes, and the base is the word without them |
| Effects.FrameOfRange | kernel/inc/cap_util.h:20-30 | a frame made from an aligned power-of-two range begins and ends where that range does, in bytes |
| Effects.Blocks | kernel/inc/cap_util.h:14-18 | blocks are 4 KiB apart and tags 128 MiB |
| Effects.ValidIsFresh | kernel/src/cap_util.c:131-152 | user code may hand in exactly capabilities with a nonempty range, the mark at its begin, no lock, no register, and one of the two modes |
| CapTable.Table.constructor | kernel/src/cap_table.c:8-13 | the zeroed table represents the empty list |
| CapTable.Table.IsEmpty | kernel/src/cap_table.c:43-46 | an entry is empty exactly when it is not on the list |
| CapTable.Table.NextOf | kernel/src/cap_table.c:63-66 | following `next` is stepping along the cyclic sequence |
| CapTable.Table.SetCapAt | kernel/src/cap_table.c:58-61 | rewrites one listed capability; links and all other entries stay |
| CapTable.Table.InsertFirst | kernel/src/cap_table.c:104-111 | inserting entry 0 of the zeroed table behind itself makes a ring of one |
| CapTable.Table.Insert | kernel/src/cap_table.c:104-111 | is insertion behind the given entry; next and prev stay inverse and listed entries are exactly the occupied ones |
| CapTable.Table.Delete | kernel/src/cap_table.c:95-102 | is removal from the sequence, rings of one included |
| CapTable.Table.Move | kernel/src/cap_table.c:83-93 | is replacement in place; the table still represents the list if and only if the ring has two or more entries |
| CapTable.Table.Init | kernel/src/cap_table.c:20-34 | the boot loop threads the occupied boot entries with entry 0 first and the others in descending order |
| CapTable.InsertLinks | kernel/src/cap_table.c:104-111 | the four link writes of an insertion turn links of the old cycle into links of the longer one |
| CapTable.RemoveLinks | kernel/src/cap_table.c:95-102 | the two link writes of a removal turn links of the old cycle into links of the shorter one |
| CapTable.MoveLinks | kernel/src/cap_table.c:83-93 | the link writes of a move give links of the moved cycle if and only if it has two or more entries |
| CapTable.LoneMoveBreaks | kernel/src/cap_table.c:83-93 | a ring of one in a table of two: after the move the links no longer form a ring |
| Capability.PidInRange | kernel/src/cap_table.c:78-81 | the owner of a table entry is a process number |
| Effects.OwnerOfEntry | kernel/src/cap_table.c:36-41 | entry i of a process's table belongs to that process |
| Schedule.LaneOfPut | kernel/src/sched.c:56-62 | writing one hart's 16-bit lane sets it and leaves the other harts' lanes as they were |
| Schedule.LaneOfClear | kernel/src/sched.c:74-78 | clearing one lane leaves the others |
| Schedule.EntryRoundTrip | kernel/src/sched.c:84-91 | owner and length unpack to what was packed |
| Effects.PackedWord | kernel/src/sched.c:56-62 | a lane written into a clear word puts the owner at bit 16 * lane + 8 and the length at bit 16 * lane |
| Effects.LaneOfHart | kernel/src/sched.c:84-91 | lanes count up from the lowest hart |
| Schedule.AtUpdate | kernel/src/sched.c:48-66 | after an update exactly the named slots of the named hart read (pid, end - slot) |
| Schedule.AtErase | kernel/src/sched.c:68-82 | after a deletion exactly the named slots of the named hart read zero |
| Schedule.AtInit | kernel/src/sched.c:33-46 | after boot every slot of every hart belongs to process 0 until the period's end |
| Schedule.Scheduler.SchedUpdate | kernel/src/sched.c:48-66 | the loop over the words does what the update function says |
| Schedule.Scheduler.SchedDelete | kernel/src/sched.c:68-82 | the loop over the words does what the erase function says |
| Schedule.Scheduler.SchedInit | kernel/src/sched.c:33-46 | the loop over the harts gives every period to process 0 |
| Schedule.Scheduler.SlotInfoGet | kernel/src/sched.c:84-91 | shifting and masking a word yields the owner and the length in that hart's lane |
| Schedule.Scheduler.LosesTie | kernel/src/sched.c:106-122 | the two loops over the other harts decide whether one of them has priority |
| Schedule.TwoWinners | kernel/src/sched.c:106-122 | two harts with the same owner both go on only if one is the last hart and its slice is longer |
| Schedule.TwoWinIff | kernel/src/sched.c:106-122 | two harts go on for one owner if and only if the last hart reads it, some lower hart with a slice does, and the last hart's slice is longer than theirs |
| Schedule.SomeWinner | kernel/src/sched.c:106-122 | among the harts that read one owner, one always goes on |
| Ties.LastHartTie | kernel/src/sched.c:117-121 | a run of the four-hart board after which hart 0 and hart 3 both go on for process 0 in slot 0 |
| CapList.InsertKeepsThreaded | kernel/src/cap_ops.c:121-131 | inserting a derivation right behind its source keeps the list order: a later entry of a family lies inside what an earlier one handed out or wholly below it, and what lies under an entry follows it without a gap |
| CapList.RemoveKeepsThreaded | kernel/src/cap_ops.c:101-107 | removing any entry keeps that order |
| CapList.MoveKeepsThreaded | kernel/src/cap_ops.c:89-99 | moving an entry to another table slot keeps that order |
| CapList.SetCapKeepsThreaded | kernel/src/cap_ops.c:161-163 | lowering a mark or a lock keeps that order if everything handed out is still covered |
| Authority.OwnerUnique | kernel/src/cap_ops.c:180-193 | at most one time capability owns a slot of a hart |
| Authority.EatsUnlessOverreach | kernel/src/cap_ops.c:201-242 | in every state the neighbour test takes what was derived from the revoked entry, and otherwise exactly a frame above the revoked memory (over the end of the list, the boot frame above its begin) |
| Authority.EatsExact | kernel/src/cap_ops.c:300-319 | for all kinds but memory, and for memory while the memory families have their heads, the one-sided tests are exact: they remove the next entry if and only if it is of the same family and within the revoked capability |
| Derivations.PassKeepsSafe | kernel/src/cap_ops.c:109-119 | the test that a whole revocation spares the boot frame can be made before the first pass and then holds at each |
| Authority.NothingUnder | kernel/src/cap_ops.c:315-318 | if the next entry is not within the revoked capability, no later one is |
| Derivations.AcceptedDerivation | kernel/src/cap_ops.c:244-273 | whatever the derive tests accept is sound, taken from the free part of its source, and carries no more than the boot capability |
| Effects.DeriveIff | kernel/src/cap_ops.c:121-131 | the code of every derivation: it succeeds if and only if source and target are occupied and empty and the new capability is of a kind the source makes, in its free part, of its region, hart or channel, with no more rights, memory only if unlocked, time from the mark on, a client only from its server socket |
| Effects.DeriveEffect | kernel/src/cap_ops.c:244-273 | afterwards the target holds the new capability right behind its source, the source's mark is the new end, or it is locked for a frame, or unchanged for a server socket, and no other entry, register or record changed |
| Effects.MoveEffect | kernel/src/cap_ops.c:89-99 | the code of every move, what every entry holds afterwards, a loaded frame that changes its process being unloaded, and that the list place is kept |
| Effects.DeleteEffect | kernel/src/cap_ops.c:101-107 | the code of every deletion, and what every entry, register and channel record holds afterwards: a server socket clears its record, a client socket only a client pointer that names its process |
| Steps.DeleteKeepsInv | kernel/src/cap_ops.c:135-140 | deleting keeps order, authority, schedule agreement and register agreement |
| Steps.MoveKeepsInv | kernel/src/cap_ops.c:68-99 | moving, within a process or across, keeps all of them |
| Steps.LoadKeepsInv | kernel/src/cap_pmp.c:6-22 | loading a frame keeps all of them |
| Steps.UnloadKeepsInv | kernel/src/cap_pmp.c:24-39 | unloading a frame keeps all of them |
| Effects.LoadEffect | kernel/src/cap_pmp.c:6-22 | the code of every load; on success the register has the frame's address, bits 0, 1 and 2 are its read, write and execute rights, the rest says NAPOT and unlocked, and nothing else changed |
| Effects.UnloadEffect | kernel/src/cap_pmp.c:24-39 | the code of every unload; on success that register alone is free and keeps its address |
| Derivations.DeriveKeepsInv | kernel/src/cap_ops.c:121-131 | deriving keeps all of them |
| Derivations.RevokeStepKeepsInv | kernel/src/cap_ops.c:142-178 | every single pass of every revoke handler that leaves the boot frame keeps all of them, also one that takes a frame it should not |
| Derivations.RevokeStepKeepsRoots | kernel/src/cap_ops.c:201-242 | while the memory families have their heads, no pass removes one, or the boot frame |
| CapOps.RevokeStepAt | kernel/src/cap_ops.c:109-119 | every pass that asks for another one removes one listed entry, except on a ring of one, whose entry is put back |
| Termination.LoopEndsIff | kernel/src/cap_ops.c:109-119 | the loop ends if and only if the ring is not one that it eats up and is left alone on, with a mark above the begin or a lock |
| Termination.LoneRevocation | kernel/src/cap_ops.c:142-164 | on a ring of one nothing is removed, and the loop is endless exactly for a mark above the begin or a lock |
| Termination.LoneTimeNeverEnds | kernel/src/cap_ops.c:142-164 | a lone time capability with one slot handed out: every pass asks for another one |
| Termination.RevocableEnds | kernel/src/cap_ops.c:109-119 | under the system invariant, and if the boot frame is spared, the loop ends |
| Effects.AsksAgainIff | kernel/src/cap_ops.c:201-242 | a pass asks for another one if and only if it removed the next entry and that one had handed something out, was locked, began behind the revoked one's begin, or has no range |
| Revocation.RevokePassKeepsInv | kernel/src/cap_ops.c:109-119 | a pass leaves the revoked entry at its place with its range and rights, and every entry before it alone |
| Revocation.FinishedLast | kernel/src/cap_ops.c:215-217 | the early SUCCESS exits are right: nothing that follows such a child is within the parent |
| Exactness.RevokeShape | kernel/src/cap_ops.c:109-119 | a complete revocation resets the revoked entry, removes everything derived from it, and of what stands behind that a leading run of frames above it; every other entry keeps its place |
| Exactness.RevokeExactIff | kernel/src/cap_ops.c:201-242 | it removes precisely the entries within the revoked capability if and only if, for memory, no frame above it stands behind them, or the last of them ends the loop before that |
| Exactness.RevokeExact | kernel/src/cap_ops.c:109-119 | under that condition the list is the prefix, the reset entry and the survivors in order |
| Exactness.CleanIsSafe | kernel/src/cap_ops.c:223-235 | under that condition the boot frame is spared |
| Exactness.GuardedIsClean | kernel/src/cap_ops.c:201-242 | while the memory families have their heads the condition holds for every capability |
| Exactness.RevokedIsFresh | kernel/src/cap_ops.c:201-242 | afterwards the revoked capability is at its place with its range and rights, its mark is its begin, and memory is unlocked |
| Exactness.NothingLeftUnder | kernel/src/cap_ops.c:109-119 | afterwards every later entry was listed before, and none of the family is within the revoked capability |
| Preemption.RevokeTwice | kernel/src/cap_ops.c:109-119 | revoking what is already revoked changes no table, slot, register or channel, unless a frame above it stands next to it |
| Preemption.RevokeResumes | kernel/src/cap_ops.c:109-119 | cut after any number of passes that asked for more and called again, revocation reaches the table, schedule, registers and channels of one uninterrupted call |
| Preemption.RevokeRepeats | kernel/src/cap_ops.c:109-119 | while the memory families have their heads, so does a call after any number of passes, finished or not |
| ChannelRevocation.RevokeClears | kernel/src/cap_ops.c:354-362 | a complete revocation clears the record of every channel whose server socket it removed, leaves server and buffer of a channel of which it removed only clients, and leaves the record of every channel of which it removed no socket |
| Runs.StepKeepsInv | kernel/src/cap_ops.c:89-131 | every admissible operation keeps the system invariant |
| Runs.RunKeepsInv | kernel/src/cap_ops.c:89-131 | so does every run, revocations interrupted at any pass included |
| Runs.RunKeepsRoots | kernel/src/cap_ops.c:89-131 | over every run that deletes no head of a memory family the heads stay, so memory revocation is exact throughout |
| Runs.RevokeSomeIsRun | kernel/src/cap_ops.c:109-119 | a revocation cut after any number of passes is a run of single passes |
| Runs.BootKeepsInv | kernel/src/kernel.c:11-27 | the kernel boots into a state that satisfies it, and loading the boot frame succeeds |
| Guarantees.ReachableInv | kernel/src/kernel.c:11-27 | every state that any run from boot reaches satisfies the system invariant |
| Guarantees.FreePartsDisjoint | kernel/src/cap_ops.c:201-273 | free parts of any two memory capabilities are disjoint, and of two time capabilities of one hart, two monitor or two channel capabilities, in every reachable state |
| Guarantees.FrameNeedsLock | kernel/src/cap_ops.c:257-271 | a frame other than the boot frame overlaps the free part of a memory capability only if that one is locked |
| Guarantees.OneServer | kernel/src/cap_ops.c:370-426 | no channel ever has two server sockets |
| Guarantees.AuthorityBound | kernel/src/cap_ops.c:180-193 | every capability lies within a boot capability in range, hart and rights, and its fields stay in their arrays' bounds |
| Guarantees.ScheduleLookup | kernel/src/sched.c:84-91 | for every hart and slot the schedule reads the one owning time capability's process and remaining length, and length 0 exactly if there is none |
| Guarantees.RegisterMirror | kernel/src/proc.c:115-129 | a register is in use exactly when a loaded frame of that process names it; that frame is the only one, the address is its, and the byte's bits 0, 1 and 2 are its read, write and execute rights, with NAPOT unlocked above them |
| Platforms.QemuVirt4Ok | common/inc/plat/qemu_virt4.h:28-41 | the boot table of the four-hart QEMU board meets every premise, for all counts of processes, slots and channels |
| Platforms.QemuVirt4Memory | common/inc/plat/qemu_virt4.h:28-41 | the four memory regions of that table, in bytes |
| Platforms.OrphanIsEaten | kernel/src/cap_ops.c:223-235 | on that board: derive a frame from entry 2, delete entry 2, and the first pass of revoking entry 3 removes the frame, which lies elsewhere |
| Registers.PmpFile.Avail | kernel/src/proc.c:115-118 | a register is free exactly when its configuration byte is zero |
| Effects.RegisterBits | kernel/src/proc.c:120-124 | the configuration byte's bits: read, write, execute, and NAPOT unlocked above them |
| Registers.PmpFile.LoadReg | kernel/src/proc.c:120-124 | writes one register of one process and no other, with the bits of `Effects.RegisterBits` |
| Registers.PmpFile.UnloadReg | kernel/src/proc.c:126-129 | frees one register of one process and leaves its address and all other registers |
| Kernel.System.constructor | kernel/src/kernel.c:19-21 | the arrays after boot represent the boot state of the model |
| Kernel.System.ProcInit | kernel/src/proc.c:12-21 | loading the boot frame succeeds, and the system invariant holds from then on |
| Kernel.System.CapMove | kernel/src/cap_ops.c:89-99 | result code and capabilities are those of the move function in all cases; the table stays sound if and only if the ring has two or more entries or the call fails |
| Kernel.System.MoveHook | kernel/src/cap_ops.c:68-87 | a time capability's slots change owner; a loaded frame is unloaded at its old process |
| Kernel.System.CapDelete | kernel/src/cap_ops.c:101-107 | code and arrays do what the delete function says |
| Kernel.System.CapDerive | kernel/src/cap_ops.c:121-131 | code and arrays do what the derive function says, which `Effects.DeriveIff` and `Effects.DeriveEffect` spell out |
| Kernel.System.RevokePass | kernel/src/cap_ops.c:116-116 | one pass of the loop does what the pass function says and keeps the system invariant |
| Kernel.System.RevokeTime | kernel/src/cap_ops.c:142-178 | the time handler is that pass |
| Kernel.System.RevokeMemory | kernel/src/cap_ops.c:201-242 | the memory handler is that pass |
| Kernel.System.RevokeMonitor | kernel/src/cap_ops.c:300-319 | the monitor handler is that pass |
| Kernel.System.RevokeChannel | kernel/src/cap_ops.c:339-368 | the channel handler is that pass |
| Kernel.System.RevokeSocket | kernel/src/cap_ops.c:398-414 | the socket handler is that pass |
| Kernel.System.CapRevoke | kernel/src/cap_ops.c:109-119 | the loop ends for every pattern of preemption; the state is that of some number of passes; on SUCCESS of the complete revocation, on preemption with a shorter list, and a further call leads to the same final state |
| Kernel.System.RevokeOnce | kernel/src/cap_ops.c:115-117 | one turn of the loop is the next pass of the revocation |
| Kernel.System.CapPmpLoad | kernel/src/cap_pmp.c:6-22 | code and arrays do what the load function says, error cases included; `Effects.LoadEffect` spells it out to the bit |
| Kernel.System.CapPmpUnload | kernel/src/cap_pmp.c:24-39 | code and arrays do what the unload function says, error cases included |
| Kernel.System.SockClear | kernel/src/cap_ipc.c:238-247 | a server socket clears its channel's record, a client socket only its own pointer |
| CapCalls.CallIsRun | kernel/src/cap_ops.c:89-131 | every capability call, a revocation of many passes that is cut short included, is a run of capability operations |
| CapCalls.RunTables | kernel/src/cap_ops.c:89-131 | every such run leaves processes alone and at most clears channel records |
| SystemRuns.CallAdmitted | kernel/src/syscall.c:276-330 | every capability call is a system call that the trap model allows |
| CapCalls.CodesDiffer | kernel/src/syscall.c:276-330 | a caller can tell all answers apart, but for the two that mean "call again" |
| Process.SendKeepsOthers | kernel/src/cap_ipc.c:25-80 | sending never changes the sender's own process record, hands over only on success and keeps the tables in shape |
| Process.DeliverShape | kernel/src/cap_ipc.c:53-78 | a delivery changes one process only, the receiver, which is then run or ready |
| Messages.DoSendIff | kernel/src/cap_ipc.c:25-80 | a message is delivered if and only if the process that the record names as server, or for tag 0 as client, waits on that channel, its timeout has not passed, and the timer, plus the announced service time of a yielding client's server, has not run out; and to that process |
| Messages.DeliversOnlyTo | kernel/src/cap_ipc.c:37-53 | over every trap every delivery goes to the process on the other side of the sender's channel record, under those conditions |
| Messages.SendIff | kernel/src/cap_ipc.c:166-182 | the code of every send, and when and to whom it delivers; a server needs one permission to send a capability, a client another |
| Messages.SendRecvIff | kernel/src/cap_ipc.c:218-236 | the code of every replyrecv and call, when and to whom it delivers, and that it then waits |
| Messages.ServerRecvIff | kernel/src/cap_ipc.c:184-201 | the code of every receive of a server; it waits without end, and the record names it and its buffer |
| Messages.ClientRecvIff | kernel/src/cap_ipc.c:203-215 | the code of every receive of a client; only the recorded client may, and it waits exactly if it can lend its time to the server, which then runs on it |
| Messages.RecvThenSend | kernel/src/cap_ipc.c:45-53 | a server that started to wait is what a client's next send on the channel reaches, if time suffices |
| Messages.ReceiverAfter | kernel/src/cap_ipc.c:53-78 | a receiver finds SUCCESS; a yielding sender hands it its timeout and the hart, otherwise it is ready with timeout 0 |
| Messages.CapabilityArrives | kernel/src/cap_ipc.c:61-66 | a sent capability moves from the sender's entry to the recorded buffer entry if that one is free, and stays otherwise |
| Messages.ReplyDropped | kernel/src/cap_ipc.c:129-139 | the capability of a reply that nobody takes is deleted, every other entry stays, and the server waits |
| Messages.WaiterAfter | kernel/src/cap_ipc.c:82-97 | a waiting server or client is recorded as such with its buffer, and waits without end unless it is a yielding client |
| Traps.HandlePost | kernel/src/syscall.c:102-149 | no assertion on a state word fails in a handler, and afterwards the old process is still busy, the chosen one is busy and all others are ready, waiting on one channel or suspended |
| Traps.TrapKeepsOneBusy | kernel/src/trap.c:7-22 | after every trap exactly the returned process is busy |
| TrapRuns.TrapLogged | kernel/src/cap_ipc.c:82-97 | a process is blocked on a channel exactly when the last event of its wait says so, over every trap |
| TrapRuns.RunSafe | kernel/src/cap_ipc.c:25-97 | over any run every message goes to a process that is waiting on that channel and whose timeout has not passed, also with stale channel pointers |
| TrapRuns.AnsweredOnce | kernel/src/cap_ipc.c:37-53 | between two messages to one process it waited anew: no wait is answered twice |
| TrapRuns.MessageArrives | kernel/src/cap_ipc.c:53-66 | over every trap a process finds the message it had, unless a send delivers to it: then exactly the sent data and capability word, with the sender's tag |
| TrapRuns.StaysSuspended | kernel/src/proc.c:68-83 | a released suspended process neither runs nor gets a message in any trap that does not resume it |
| TrapRuns.SuspendedUntilResumed | kernel/src/cap_monitor.c:31-45 | the same over any run without a resume of that process |
| TrapRuns.SentOnce | kernel/src/cap_ipc.c:61-66 | no trap but a capability call adds an entry: a sent capability is moved, dropped or left, never copied |
| SystemRuns.TrapKeepsInv | kernel/src/trap.c:7-22 | every trap keeps list order, authority, schedule and register agreement, with the moves and deletions that messages cause |
| SystemRuns.SystemSafe | kernel/src/trap.c:7-22 | in every state of every run of traps the system invariant holds and exactly one process is busy |
| SystemRuns.SystemFromBoot | kernel/src/kernel.c:11-27 | from boot on, for every first pick and every run of traps: the system invariant holds, one process is busy, and every message answered an open wait in time |
| SystemRuns.BootPicksZero | kernel/src/sched.c:33-46 | after boot the first attempt in any slot picks process 0, on one hart, and on several exactly for the lowest hart |
| SystemRuns.PickedOwnsSlot | kernel/src/sched.c:124-135 | whoever the scheduler picks holds, in its own table, the time capability of the current slot, and its timeout is that capability's end |
| SystemRuns.LaneInRange | kernel/src/proc.c:23-28 | the process number the scheduler reads never fails the assertion on it |
| Monitoring.MonitorCallReach | kernel/src/cap_monitor.c:31-69 | suspend, resume and yield are refused if and only if the entry holds no monitor capability with mark <= pid < end, and touch no other process, no table and no register |
| Monitoring.CheckIff | kernel/src/cap_monitor.c:7-16 | the test's two refusals and its success, by range and state word |
| Monitoring.MonitorMoveIff | kernel/src/cap_monitor.c:95-101 | a monitor's move is the plain move if and only if each side is its own process or a suspended, released one with mark <= pid < end; otherwise nothing changes |
| Monitoring.MonitorFrameIff | kernel/src/cap_monitor.c:103-109 | a monitor's load is the plain load if and only if the frame's process is such a one; otherwise nothing changes |
| Monitoring.MonitorUnloadIff | kernel/src/cap_monitor.c:111-117 | likewise for unloading |
| Monitoring.MonitorCallsIff | kernel/src/syscall.c:276-330 | of all capability calls only those through a monitor are refused for authority, and exactly if it does not hold the processes concerned |
| Monitoring.MonitorReach | kernel/src/cap_monitor.c:18-29 | over every state with the system invariant, a monitor's move changes tables and registers only of its own process and of suspended processes with mark <= pid < end, and keeps the invariant |
| Monitoring.SuspendEffect | kernel/src/proc.c:68-76 | a suspended process is not ready and waits for nothing; one that waited finds an error code |
| Monitoring.ResumeEffect | kernel/src/proc.c:78-83 | a resumed process is ready with timeout 0; others only lose the flag |
| Monitoring.YieldEffect | kernel/src/cap_monitor.c:57-69 | yielding succeeds if and only if the process is neither running nor suspended and its timeout has passed; then it runs next |
| Monitoring.PickIff | kernel/src/sched.c:93-141 | an attempt succeeds if and only if a time capability owns the slot, no other hart has priority, and the owner is neither running nor suspended and its timeout has passed |
| Monitoring.InterruptReschedules | kernel/src/trap.c:7-22 | after an interrupt, and after a system call that comes too late, the process runs that holds the time capability of the current slot, until that capability's end; the interrupted one is no longer busy and nothing else changed |
| Monitoring.ExceptionStays | kernel/src/trap.c:19-21 | an exception goes on in the same process |
| Monitoring.NotBeforeTimeout | kernel/src/proc.c:38-48 | over every trap no process is switched to before its timeout, except to take a message it waited for |
| Monitoring.SleepsUntil | kernel/src/syscall.c:245-251 | a process that sleeps until a time is not picked again before it |
| Monitoring.ResultInRegister | kernel/src/syscall.c:102-149 | the caller of a system call finds the handler's result code, whoever runs next |
| Hart.Cpu.constructor | kernel/src/proc.c:12-18 | process 0 starts ready, all others suspended |
| Hart.Cpu.ProcAcquire | kernel/src/proc.c:38-56 | acquires exactly a process that is neither busy nor suspended and whose timeout has passed |
| Hart.Cpu.ProcRelease | kernel/src/proc.c:58-66 | clears the busy flag and nothing else |
| Hart.Cpu.ProcSuspend | kernel/src/proc.c:68-76 | suspending a blocked process also ends its wait, with an error code |
| Hart.Cpu.ProcResume | kernel/src/proc.c:78-83 | resuming clears the flag, and the timeout of an idle suspended process |
| Hart.Cpu.ProcIpcWait | kernel/src/proc.c:85-89 | a busy process is marked as waiting on the channel |
| Hart.Cpu.ProcIpcAcquire | kernel/src/proc.c:91-108 | acquires exactly a process that waits on that channel and whose timeout has not passed |
| Hart.Cpu.DoSendMsg | kernel/src/cap_ipc.c:25-80 | the code does what the send function says: result code, next process, message, moved capability, channel record; `Messages` says what that means |
| Hart.Cpu.DoRecvMsg | kernel/src/cap_ipc.c:82-97 | the code does what the receive function says |
| Hart.Cpu.CapSockSend | kernel/src/cap_ipc.c:166-182 | entry point for reply and send, with its error cases |
| Hart.Cpu.CapSockRecv | kernel/src/cap_ipc.c:184-216 | entry point for receive, with its error cases and the client that lends its time to the server |
| Hart.Cpu.CapSockSendRecv | kernel/src/cap_ipc.c:218-236 | entry point for replyrecv and call, with its error cases |
| Hart.Cpu.SendThenRecv | kernel/src/cap_ipc.c:113-163 | replyrecv waits even if its reply found nobody and then drops the capability; call waits only after a successful send |
| Hart.Cpu.MonitorCall | kernel/src/cap_monitor.c:31-69 | suspend, resume and yield do what the trap model says; `Monitoring` says what that means |
| Hart.Cpu.CheckSuspended | kernel/src/cap_monitor.c:7-16 | the code does what the test of the trap model does, which `Monitoring.CheckIff` spells out |
| Hart.Cpu.MonitorCapMove | kernel/src/cap_monitor.c:95-101 | a move that is checked on both sides, or no change; the table stays sound if and only if the ring has two or more entries or the call fails |
| Hart.Cpu.MonitorPmpLoad | kernel/src/cap_monitor.c:103-109 | a checked load, or no change |
| Hart.Cpu.MonitorPmpUnload | kernel/src/cap_monitor.c:111-117 | a checked unload, or no change |
| Hart.Cpu.SchedFetch | kernel/src/sched.c:93-141 | picks the slot's owner exactly if there is one, no other hart has priority and it can be acquired, and changes nothing otherwise |
| Hart.Cpu.Sched | kernel/src/sched.c:143-162 | the loop stops at the first clock reading whose slot has an owner that can be acquired |
| Hart.Cpu.Dispatch | kernel/src/syscall.c:276-330 | every capability call, on the caller's table or through a monitor, has one of its effects |
| Hart.Cpu.CapabilityCall | kernel/src/syscall.c:102-149 | with the result code in the caller's register, it is a capability trap of the trap model |
| Hart.Cpu.TrapHandler | kernel/src/trap.c:7-22 | for every cause of a trap it is one step of the trap model; the system invariant is kept and the returned process is the only busy one |
| Semaphore.HeldBounded | kernel/src/smp/semaphore.c:6-38 | over every interleaving of any number of participants that draws fewer than 2^64 tickets, those held never exceed the initial count |
| SemaphoreLimits.BoundLimit | kernel/src/smp/semaphore.c:6-38 | over all runs that draw up to a limit, tickets held stay within the initial count, and a writer is alone, if and only if the limit is below 2^64; also over the kernel's own requests |
| SemaphoreLimits.BoundFails | kernel/src/smp/semaphore.c:14-22 | for every initial count, a run of readers and writers in which a writer holds all tickets and a reader enters |
| Semaphore.WriterExcludes | kernel/src/sched.c:53-65 | while a writer holds all tickets nobody else holds any |
| Semaphore.FirstComeFirstServed | kernel/src/smp/semaphore.c:14-22 | tickets become eligible in the order in which they were drawn, while fewer than 2^64 are |
| SemaphoreLimits.OrderLimit | kernel/src/smp/semaphore.c:14-22 | over all runs that draw up to a limit this holds if and only if the limit is below 2^64 |
| Semaphore.OldestMayEnter | kernel/src/smp/semaphore.c:24-28 | once all holders released, the oldest waiter of at most the initial count may enter, while the tickets drawn and the initial count are at most 2^64 together |
| SemaphoreLimits.ProgressLimit | kernel/src/smp/semaphore.c:24-28 | over all runs of positive requests that draw up to a limit this holds if and only if the limit and the initial count together are at most 2^64 |
| SemaphoreLimits.ProgressFails | kernel/src/smp/semaphore.c:14-28 | for every initial count, a run of one-ticket requests after which a reader waits though nobody holds and nobody was before it |
| FatEntry.GetPut | projects/exercise/app0/ff.c:1269-1318 | loading a stored entry gives the value cut to 12, 16 or 28 bits |
| FatEntry.GetPutOther | projects/exercise/app0/ff.c:1282-1311 | every other entry is unchanged, 12-bit neighbours in a shared byte included |
| FatLayout.EntryOfNumber | projects/exercise/app0/ff.c:1191-1259 | entry c of a table, read as one little-endian number, is that number shifted right by c entries of 12, 16 or 32 bits and cut to 12, 16 or 28 bits |
| FatWindow.SameSector | projects/exercise/app0/ff.c:1217-1225 | 16- and 32-bit entries never straddle two sectors |
| FatWindow.WriteFatByte | projects/exercise/app0/ff.c:1085-1103 | a byte written in a FAT sector, with its mirror, is that byte of the FAT and no other |
| FatLayout.FatByteOnDisk | projects/exercise/app0/ff.c:1217-1225 | byte i of the table is byte i % 512 of sector i / 512 behind its begin |
| FatLayout.CopiesEqual | projects/exercise/app0/ff.c:1085-1103 | with two tables, every sector of the second equals that of the first |
| FatLayout.NeededIff | projects/exercise/app0/ff.c:3582-3591 | the size that mounting asks of a table is exactly what its entries take |
| FatWindow.Volume.SyncWindow | projects/exercise/app0/ff.c:1085-1103 | brings the disk to the logical disk; both FAT copies on the disk stay equal |
| FatWindow.Volume.MoveWindow | projects/exercise/app0/ff.c:1107-1128 | loads the sector and never changes the logical disk |
| FatWindow.Volume.GetFat | projects/exercise/app0/ff.c:1191-1259 | returns the entry of the logical disk for every width, straddling entries included, and 1 outside the range; the logical disk is unchanged |
| FatWindow.Volume.PutFat | projects/exercise/app0/ff.c:1269-1318 | stores the entry in the logical disk's FAT, keeps the copies equal and every sector outside the FATs unchanged; refuses numbers out of range |
| FatWindow.Volume.PutFat12 | projects/exercise/app0/ff.c:1282-1294 | the two read-modify-writes of a 12-bit entry, which may lie in different sectors |
| FatAlloc.EntriesPut | projects/exercise/app0/ff.c:1269-1318 | seen as a sequence of entries, a store replaces one element |
| FatLayout.EndMark | projects/exercise/app0/ff.c:1630-1634 | a chain ends with an entry of all ones, cut to its width |
| FatLayout.FreeIsCardinality | projects/exercise/app0/ff.c:4864-4927 | the free count is the cardinality of the set of clusters whose entry is zero |
| FatChains.StartsChain | projects/exercise/app0/ff.c:1630-1634 | taking a free cluster as a chain of its own keeps all chains acyclic and disjoint |
| FatChains.StretchesChain | projects/exercise/app0/ff.c:1630-1634 | so does appending it to a chain |
| FatChains.RemovesChain | projects/exercise/app0/ff.c:1483-1516 | the removal loop frees exactly the chain's clusters |
| FatChains.RemovesTail | projects/exercise/app0/ff.c:1477-1516 | removal from the middle frees exactly the tail, and what is left is well-formed |
| FatAlloc.Fs.RemoveChain | projects/exercise/app0/ff.c:1459-1545 | does what the removal function says on every table, keeps a right free count right if the previous cluster's entry is not free, and refuses numbers out of range |
| FatAlloc.Fs.RemoveLoop | projects/exercise/app0/ff.c:1483-1516 | ends on every table, cyclic chains included |
| FatAlloc.Fs.FindFree | projects/exercise/app0/ff.c:1616-1629 | the search round the table finds the first free cluster behind the given one, or from cluster 2 on; or there is none, or an invalid entry is in the way |
| FatAlloc.Fs.CreateChain | projects/exercise/app0/ff.c:1554-1645 | takes the cluster behind the given one if it is free, else the first free one of the search, and links it to exactly the given chain; reports 0 only if no cluster is free or the cached count says so; keeps a right free count right |
| FatAlloc.Fs.NewChain | projects/exercise/app0/ff.c:1554-1645 | on a well-formed table with a right count it starts a chain, and reports 0 if and only if no cluster is free |
| FatAlloc.Fs.GrowChain | projects/exercise/app0/ff.c:1554-1645 | on such a table it appends to exactly that chain, and reports 0 if and only if no cluster is free |
| FatAlloc.Fs.CutChain | projects/exercise/app0/ff.c:1459-1545 | on such a table it succeeds and frees exactly the tail |
| FatAlloc.Fs.GetFree | projects/exercise/app0/ff.c:4864-4927 | a known count is returned; a scan gives the number of free clusters, plus the reserved entries that are zero on 16- and 32-bit tables; an invalid 12-bit entry is an error |
| FatAlloc.Fs.ScanWords | projects/exercise/app0/ff.c:4902-4920 | the scan by sectors counts the zero entries from entry 0 on |
| FatAlloc.ZerosAreFree | projects/exercise/app0/ff.c:4902-4920 | that is the number of free clusters plus the reserved entries that are zero |
| FatAlloc.BlankTableMiscounted | projects/exercise/app0/ff.c:4902-4920 | a blank 16-bit table of 5000 entries: the scan counts 5000, but 4998 clusters are free |
| FatFile.WalkChain | projects/exercise/app0/ff.c:4566-4592 | following links from the first cluster reaches the chain's element of that number |
| FatFile.ClusterStarts | projects/exercise/app0/ff.c:1174-1182 | cluster 2 starts at the data area, and each cluster where the one before ends |
| FatFile.ClustersApart | projects/exercise/app0/ff.c:1174-1182 | two clusters share no sector |
| FatFile.File.Seek | projects/exercise/app0/ff.c:4547-4614 | after a seek from anywhere, shortcut or not, the cached cluster is the one a walk from the first cluster finds, and the sector cache fits |
| FatFile.File.Follow | projects/exercise/app0/ff.c:4566-4592 | the following loop stops in the cluster of the byte before the target |
| FatFile.File.Read | projects/exercise/app0/ff.c:3966-4030 | returns as many bytes as asked for or left; byte p of them is byte p % 512 of sector database + csize * (ch[p / bcs] - 2) + p / 512 % csize; the cached cluster fits |
| FatFile.File.Advance | projects/exercise/app0/ff.c:3967-3985 | at a cluster boundary one link is followed, elsewhere the cached cluster is already the right one |
| FatFile.Arrived | projects/exercise/app0/ff.c:3986-4027 | bytes read from the disk within one cluster are the file's bytes |

## Left out

- Steps.DeleteKeepsInv: requires that the entry is not the boot PMP entry, which closes the ring behind the last family; the code does not forbid deleting it.
- Derivations.RevokeStepKeepsInv: requires that the pass does not remove the boot PMP entry over the end of the list.
- Runs.StepKeepsInv: requires that the boot PMP entry is not removed, by a deletion or by a revocation over the end of the list, and not moved while it is alone on the ring.
- Runs.RunKeepsInv: requires the same of every operation of the run.
- SystemRuns.TrapKeepsInv: requires that an unanswered reply does not drop the boot PMP entry, and the same of capability calls.
- SystemRuns.SystemSafe: requires the same of every trap of the run.
- SystemRuns.SystemFromBoot: requires the same of every trap of the run.
- Kernel.System.RevokePass: requires the system invariant, which every run from boot has, and that the boot PMP entry is spared.
- Kernel.System.CapRevoke: requires the same; what the loop does on a ring of one is in `Termination`.
- Hart.Cpu.DoSendMsg: requires that a listed capability that is sent is not alone on the ring.
- Hart.Cpu.SendThenRecv: requires the same.
- Hart.Cpu.CapSockSend: requires that a socket that is alone on the ring is not sent through itself, which cannot happen while the boot PMP entry is listed.
- Hart.Cpu.CapSockSendRecv: requires the same.
- Hart.Cpu.Dispatch: requires the premises of the runs for its call: the boot PMP entry is not removed, and not moved while it is alone.
- Hart.Cpu.CapabilityCall: requires the same.
- Hart.Cpu.TrapHandler: requires the same of what it is called with. The scheduler's clock readings are an input, and nothing is said of a list without one that fits.
- Semaphore.HeldBounded: requires that fewer than 2^64 tickets are drawn; what happens beyond is in `SemaphoreLimits`.
- Schedule.Scheduler.SchedUpdate: masks and shifts on a 64-bit word are written as arithmetic on its four lanes.
- FatFile.File.Seek: covers files open for reading only, which never have unsaved data in the sector cache, with a chain that is long enough; in write mode the code also lengthens the chain.
- FatFile.File.Read: covers the same files; a sector that waits in the window to be written back is none of the file's own.
- Premises on the boot table: one time capability per hart, one monitor and one channel capability, memory regions
  that do not overlap, those with one tag listed in descending order, and the boot frame below the last memory family
  (`Authority.BootOk`, `Runs.PlatformOk`). Only the table of the four-hart QEMU board is checked against them.
- Configurations whose process or slot count does not fit the 8-bit fields of a schedule lane
  (`Capability.ValidConfig`).
- Process states on several harts at once; only the semaphore and the ties between harts are modelled for several.
- In which process's table a capability sent by a message ends up; both sides of a channel share one buffer pointer.
- System-call decoding and its validators, calls that only read or write registers or read capabilities, the `sync`
  call, and what an exception does to the registers.
- Reserved bits of capability words, and printing of capabilities.
- Disk errors, the FSInfo sector and its flags, exFAT, fast seek, directories, paths, writing and truncating files.
- Mounting: what the mount code computes from the boot sector is a parameter, with the limits it checks.
