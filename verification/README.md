# A verified model of the Xinu kernel services

This project models five parts of the Xinu operating system kernel and proves what they
promise: the local file system, the process manager, ports, the heap, and two algorithms.
Code that changes tables, buffers and disk sectors in place is modelled as classes over
arrays whose methods follow the source statement by statement. Each method is proved against
a function on values, and the laws are proved about those functions, mostly for every run of
calls.

- **Local file system** (`Lfs*.dfy`). A disk of 512-byte sectors, the cached directory, and
  one control block per open file with its cached index block, data block, byte pointer and
  dirty bits. A caller sees files as byte sequences and open files as positions
  (`LfsVolume`); the class `Lfs.LocalFs` is proved to behave exactly like that. Ownership of
  blocks, both free lists, formatting, truncation, and what the disk alone holds after a
  close are proved from one invariant (`LfsLayout.Inv`). `LfsLaws` says what the calls on a
  volume mean for each other: a read is a run of gets, a write a run of puts.
- **Process manager** (`Queues`, `Delta`, `Sched`, `Calls`, `Procs`, `Kernel`, `KernelRun`
  and the laws in `Semaphores`, `SemaphoreLaws`, `SleepLaws`, `ZeroWait`, `ReadyLaws`,
  `TurnLaws`, `ProcLaws`, `CallerLaws`, `RunLaws`, `BlockLaws`). All lists of processes run through one table of doubly linked
  nodes. Each kernel call is a step; a context switch is an assignment to the current process.
  A call that goes on after it was blocked (`receive`, `recvtime`) is two steps, and `kill` is two steps because its
  message to the parent may switch processes. `CallerLaws` keeps a ledger of calls and answers alone,
  and proves that it decides what receivers are answered, who may be resumed, and who is gone.
- **Ports** (`PortSpec`, `Ports`, `PortRun`, `PortCallers`, `PortStale`, `PortSemaphores`). A port call is
  split wherever another process can run: blocked, released but not yet running, and three steps for clearing a port. The
  semaphores of a port are those of the kernel as a port sees them (`PortSemaphores`).
  `PortCallers` keeps a book of calls and answers alone, and proves that it decides every answer.
- **Heap** (`Heap`, `Allocator`, `HeapRun`). Block headers live in a map from addresses; the
  free list is proved to be a canonical form of the set of free bytes.
- **Algorithms** (`QuickSort`, `Crc32`). The three-way quicksort with its `goto` control flow
  as loops, and CRC-32 as in section 8 of RFC 1952 against division bit by bit.

## What the proofs brought to light

- A file that is created and closed without a byte written is not on the disk: `lfsopen`
  does not mark the directory as changed. After a close, a file is on the disk if and only if,
  before the close, the directory was marked as changed or the directory on the disk counted
  the file already; that is certain unless the file is empty (`Lfs.LocalFs.Close`,
  `LfsRun.EmptyFileIsLost`).
- The guard of `lfscreate` lets too much through. With no index blocks it leaves an index head
  that names the first data block; with no sector left for data its unsigned count of data
  blocks wraps and it writes behind the disk. Once the guard has passed, the result is a sound
  file system written inside the disk if and only if at least one index block was asked for and
  the index area leaves room for the directory and one data block (`LfsFormat.Format`,
  `LfsFormat.HeadsLieApart`, `LfsFormat.TwoSectorDisk`).
- The test in `lflputc` for a position beyond the end never succeeds: no call leads to such a
  position (`LfsRefine.VolumeIsOK`).
- `freemem` tests where a range starts, not where it ends: after a free that succeeds, of a range
  that ends below 2^32, the free list is still inside the heap if and only if the range is
  (`Allocator.Store.FreeMem`, `Heap.GivenBelow`; `HeapRun.FreeBehindTheHeap` frees the eight
  bytes behind the heap).
- `getmem` and `getstk` answer a request of more than 2^32 - 8 bytes, which rounds to none, with
  a block that stays on the free list, and no other request (`Allocator.Store.GetMem`). Giving
  such a block back with `freemem` destroys the free list (`HeapRun.GetThenFree`). In general,
  once `freemem` has accepted a range, memory still holds a free list if and only if the range
  has bytes and ends below 2^32, or it touches the block before it and that block, its length
  taken modulo 2^32, still has bytes and ends below 2^32 (`Allocator.Store.FreeMem`).
- The guard of `newqueue` grants one list more than the table has room for
  (`Kernel.Machine.NewQueue`, `KernelRun.OneQueueTooMany`).
- A timed receive with a delay of no ticks makes the next clock tick count for nobody else.
  A tick takes one from every sleeper if and only if nobody has zero ticks left
  (`SleepLaws.ClockCounts`, `ZeroWait.NothingTaken`; `ZeroWait.FiveTicksStayFive` is a run from
  start-up). In runs without such a call every tick takes one (`ZeroWait.EveryTickCounts`).
- The null process may not block, nor anybody while rescheduling is deferred, and the source
  does not check it. A process that waits, sleeps, receives, suspends or kills itself leaves a
  running process behind if and only if rescheduling is not deferred and somebody is ready
  (`BlockLaws.WhoMayWait`, `WhoMaySleep`, `WhoMayStop`). `BlockLaws.NullProcessBlocks` and
  `BlockLaws.DeferredProcessBlocks` are runs from start-up that end where nobody is left.
- `ptcount` documents a negative count as an empty port. The port is empty if and only if no
  released receiver has yet to run (`PortSpec.CountMeans`, `PortRun.NegativeCountNotEmpty`).
- `ptreset` restores the capacity if and only if it fits 16 bits (`PortRun.ResetCapacity`,
  `PortRun.CapacityLost`).
- The sequence check of ports tells a cleared port from an intact one as long as fewer than
  2^32 clears lie between; it fails exactly when the number has come round
  (`PortSpec.CheckTells`). After 2^32 resets of a port a process that was blocked in it before
  passes the check without a slot or without a message (`PortStale.StaleCheckPasses`).
- `ptcreate` does not look at what `semcreate` returns. A port without semaphores is
  modelled: nothing is ever sent or received on it, and the accounts still hold.

## Model

| member | source | states |
|---|---|---|
| LfsCodec.WordRoundTrip | include/lfilesys.h:71-76 | a stored 32-bit word is loaded back, and no other bytes change |
| LfsCodec.IbRoundTrip | include/lfilesys.h:71-76 | the 72 bytes of an index block decode to that block |
| LfsCodec.IbPutGet | device/lfs/lfibput.c:23-41 | after writing an index block into its shared sector, reading it gives it back and every other index block of the disk reads as before |
| LfsDisk.IbGet | device/lfs/lfibget.c:22-29 | the copy loop yields index block number inum of the sector image |
| LfsDisk.IbPut | device/lfs/lfibput.c:23-41 | only the 72 bytes of the block change in its sector, no other sector changes |
| LfsDisk.IbClear | device/lfs/lfibclear.c:16-20 | all sixteen pointers null, the given offset |
| LfsLayout.PartitionTake | device/lfs/lfdballoc.c:21-39 | taking the top free block for a file keeps every block with exactly one owner |
| LfsLayout.PartitionRelease | device/lfs/lfdbfree.c:18-22 | giving all blocks of a file back, in order or reversed, keeps every block with exactly one owner |
| LfsSteps.FlushData | device/lfs/lfflush.c:29-32 | writing a dirty data block keeps the whole invariant |
| LfsSteps.FlushIndex | device/lfs/lfflush.c:36-39 | writing a dirty index block keeps the whole invariant |
| LfsSteps.FlushDirectory | device/lfs/lfflush.c:21-25 | writing the directory keeps the invariant and brings the stored directory up to date |
| LfsSteps.GrowChain | device/lfs/lfsetup.c:50-54 | a new index block at the end of a chain, its predecessor or the directory pointing to it, keeps the invariant |
| LfsSteps.GrowBlocks | device/lfs/lfsetup.c:106-109 | a new data block in the last index block keeps the invariant |
| LfsSteps.PutByte | device/lfs/lflputc.c:51-60 | a byte stored in the cached block changes the contents of that file at that position and nothing else |
| Lfs.LocalFs.constructor | device/lfs/lfsinit.c:9-31 | on a sound disk with every file closed the system starts in a sound state |
| Lfs.LocalFs.IbAlloc | device/lfs/lfiballoc.c:17-32 | pops the head of the index free list and stores the directory |
| Lfs.LocalFs.DbAlloc | device/lfs/lfdballoc.c:21-39 | pops the head of the data free list, stores the directory, returns a cleared buffer |
| Lfs.LocalFs.DbFree | device/lfs/lfdbfree.c:18-22 | the block becomes the head of the data free list and points to the old head |
| Lfs.LocalFs.Flush | device/lfs/lfflush.c:15-41 | afterwards directory, data and index block are on the disk and no dirty bit is set |
| Lfs.LocalFs.FirstIndex | device/lfs/lfsetup.c:45-72 | the cached index block belongs to the file and starts at or before the position; an empty chain gets its first block |
| Lfs.LocalFs.ExtendChain | device/lfs/lfsetup.c:80-88 | the chain grows by one linked index block, on the disk too |
| Lfs.LocalFs.NextIndex | device/lfs/lfsetup.c:79-93 | one turn of the loop moves to the next index block, making it when there is none |
| Lfs.LocalFs.SetIndex | device/lfs/lfsetup.c:45-94 | the loop ends with the index block that covers the position |
| Lfs.LocalFs.SetData | device/lfs/lfsetup.c:100-119 | the data block of the position is current and the byte pointer is at the position |
| Lfs.LocalFs.Setup | device/lfs/lfsetup.c:36-119 | positions both caches and grows the file by exactly the blocks that are missing |
| Lfs.LocalFs.Getc | device/lfs/lflgetc.c:25-51 | returns the byte at the position or end of file, as the volume does; the layout is untouched |
| Lfs.LocalFs.StoreByte | device/lfs/lflputc.c:51-60 | contents change at the position only, the size grows by one at the end |
| Lfs.LocalFs.Putc | device/lfs/lflputc.c:25-63 | overwrites or appends one byte, as the volume does |
| Lfs.LocalFs.Seek | device/lfs/lflseek.c:20-40 | moves within the file or refuses, as the volume does |
| Lfs.LocalFs.Read | device/lfs/lflread.c:18-38 | fills the buffer with the next bytes up to the end, returning their number or end of file |
| Lfs.LocalFs.Write | device/lfs/lflwrite.c:17-28 | splices all bytes in at the position |
| Lfs.LocalFs.Open | device/lfs/lfsopen.c:27-179 | name length, mode, already open, free device, old and new files: result and new volume in every case |
| Lfs.LocalFs.GetMode | device/lfs/lfgetmode.c:24-60 | accepts exactly the mode strings without repeated or conflicting letters |
| Lfs.LocalFs.FindDevice | device/lfs/lfsopen.c:48-78 | refuses a file that is already open, otherwise finds the lowest free device |
| Lfs.LocalFs.FindFile | device/lfs/lfsopen.c:95-110 | finds the first directory entry of that name |
| Lfs.LocalFs.Close | device/lfs/lflclose.c:22-37 | the file is on the disk iff the directory was marked as changed before the call or the directory on the disk counted the file already, certain unless it is empty; nothing is written when nothing is dirty |
| Lfs.LocalFs.Truncate | device/lfs/lftruncate.c:25-103 | terminates, empties the file, returns exactly its blocks to the free lists, leaves other files alone |
| Lfs.LocalFs.Release | device/lfs/lftruncate.c:31-103 | the splice of the whole chain in front of the free list, null stop marker included |
| Lfs.LocalFs.FreeChain | device/lfs/lftruncate.c:54-90 | every data block freed and every index block cleared, walking until the stop marker |
| LfsTrunc.StopMarker | device/lfs/lftruncate.c:52-54 | no block of the chain is the stop marker, even when the marker is null |
| LfsTrunc.TruncationDone | device/lfs/lftruncate.c:97-101 | the state after the splice satisfies the whole invariant |
| LfsRefine.VolumeIsOK | device/lfs/lflputc.c:34-37 | no open position is beyond the end and no file is open twice, in every reachable state |
| LfsRefine.ExactlyOneOwner | device/lfs/lfsetup.c:78-114 | every index and data block is either on its free list or at one place of one file |
| LfsRefine.FreeCounts | device/lfs/lfdballoc.c:21-39 | free blocks and the blocks that the file sizes need make up the disk exactly |
| LfsRefine.SizesFit | include/lfilesys.h:92-98 | no file outgrows its data area, whose size in bytes fits the 32-bit size field |
| LfsRefine.TightAfterPut | device/lfs/lfsetup.c:106-114 | after a put a file has exactly the blocks that its size needs |
| LfsDecode.CleanFileDecodes | device/lfs/lflclose.c:29-31 | with no unwritten blocks, walking the disk from the directory gives the contents |
| LfsDecode.StoredFile | device/lfs/lfflush.c:21-39 | once a flush has left its blocks written, a file is on the disk iff the flush wrote the directory or the directory on the disk counted the file before |
| LfsMount.Remountable | device/lfs/lflclose.c:29-37 | with all files closed the disk alone is a sound file system holding every file that the stored directory reaches |
| Lfs.Remount | device/lfs/lfsopen.c:84-90 | starting afresh on the disk brings back those files; the others were empty |
| LfsFormat.Format | device/lfs/lfscreate.c:29-73 | for any number of index blocks and any size: refused iff the index area exceeds half of the disk; a sector outside the disk is written iff no sector is left for data; a sound file system iff in addition an index block was asked for |
| LfsFormat.TwoSectorDisk | device/lfs/lfscreate.c:46-71 | seven index blocks on a disk of two sectors: reported as a success, written behind the disk |
| LfsFormat.HeadsLieApart | device/lfs/lfscreate.c:44-45 | in a sound file system the two list heads never name the same sector, which they do after formatting with no index block |
| LfsFormat.FreshIsSound | device/lfs/lfscreate.c:52-71 | the freshly linked lists satisfy the whole invariant |
| LfsRun.Step | device/lfs/lflputc.c:9-64 | each call answers and acts as on the plain volume |
| LfsRun.Execute | device/lfs/lfsetup.c:36-119 | over every run of calls the file system answers as the plain volume does |
| LfsRun.WriteSeekRead | device/lfs/lflwrite.c:23-28 | what was written is read back after seeking to where it was written |
| LfsLaws.ReadIsGetcs | device/lfs/lflread.c:18-38 | a read of count bytes is a run of gets: the buffer gets what they answer up to the first end of file, the number is how many that are, and EOF is answered iff the first get answers it |
| LfsLaws.RestOfFile | device/lfs/lflread.c:28-30 | reading until EOF comes to an end and yields the rest of the file |
| LfsLaws.WriteIsPutcs | device/lfs/lflwrite.c:17-28 | a write is a run of puts |
| LfsLaws.PutThenGet | device/lfs/lflputc.c:51-60 | a byte put is read back from where it was put; all others stay, and the file grows iff it was put at the end |
| LfsLaws.SeekThenGet | device/lfs/lflseek.c:20-40 | accepted iff not beyond the end; then the byte there is read, or EOF at the very end, where a put appends |
| LfsLaws.OpenLaw | device/lfs/lfsopen.c:27-179 | exactly which opens are granted; a granted one takes the lowest free device, at position 0, on the first file of that name or a new empty one; nothing else changes; a refused one changes nothing |
| LfsLaws.CloseLaw | device/lfs/lflclose.c:22-37 | after a close the device is free, the files and all other devices are as they were |
| LfsLaws.ClosedRefuses | device/lfs/lflgetc.c:25-28 | on a device that is not open every call but a read or write of no bytes is refused, and none changes anything |
| LfsLaws.TruncateThenGet | device/lfs/lftruncate.c:31-103 | the file is empty and the next get answers EOF |
| LfsRun.OtherFilesUntouched | device/lfs/lflputc.c:51-60 | a call changes at most the file open at its device |
| LfsRun.UnopenedFilePreserved | device/lfs/lfsetup.c:78-114 | along a run a file that no call has open keeps its contents |
| LfsRun.EmptyFileIsLost | device/lfs/lfsopen.c:130-139 | a created, unwritten, closed file is not on the disk |
| LfsRun.FormatRunRestart | device/lfs/lfscreate.c:29-73 | format, any run of calls, close everything, start afresh on the disk: all files that are not empty are back with the contents of the plain volume |
| Queues.PutThreaded | system/insert.c:29-34 | linking a process in between two neighbours keeps all lists doubly linked and disjoint |
| Queues.DropThreaded | system/getitem.c:53-56 | unlinking a process from any list keeps all lists doubly linked and disjoint |
| Queues.NewThreaded | system/newqueue.c:23-28 | a new head and tail disturb no other list |
| Kernel.Machine.NewQueue | system/newqueue.c:14-29 | an empty list at the next two indices; refused beyond the table but for one call too many, which writes behind it |
| KernelRun.OneQueueTooMany | system/newqueue.c:14-18 | the 123rd list is granted and written behind the table |
| Kernel.Machine.SysInit | system/initialize.c:147-186 | the tables at start-up satisfy the invariant |
| Kernel.InitialInv | system/initialize.c:147-186 | the kernel's invariant holds at the start |
| Kernel.Machine.Enqueue | system/queue.c:18-29 | the process is last on the queue; bad arguments change nothing |
| Kernel.Machine.Dequeue | system/queue.c:42-51 | the first process leaves the queue |
| Kernel.Machine.GetFirst | system/getitem.c:16-21 | the first process leaves the queue, or EMPTY |
| Kernel.Machine.GetLast | system/getitem.c:35-40 | the last process leaves the queue, or EMPTY |
| Kernel.Machine.GetItem | system/getitem.c:53-57 | the process leaves whatever list it is on |
| Kernel.Machine.FindKey | system/insert.c:22-25 | the search ends at the first smaller key, at the tail at the latest |
| Kernel.Machine.Insert | system/insert.c:18-35 | the process stands at that place with that key |
| Kernel.Machine.FindDelay | system/insertd.c:22-28 | the search ends where the delay runs out |
| Kernel.Machine.InsertD | system/insertd.c:18-41 | the process stands there with the rest of its delay, its follower's key reduced |
| Kernel.Machine.Unsleep | system/unsleep.c:24-46 | only a sleeper leaves the sleep queue, its follower taking over its delay |
| Kernel.Machine.Resched | system/resched.c:18-43 | the next current process as specified; the ready list is never empty when it is dequeued |
| Kernel.Machine.Ready | system/ready.c:17-28 | the process is ready and the processor rescheduled |
| Kernel.Machine.DeferStart | system/resched.c:67-72 | nested deferral begins |
| Kernel.Machine.DeferStop | system/resched.c:74-81 | the last end of deferral makes up for a suppressed reschedule |
| Kernel.Machine.Wait | system/wait.c:18-38 | the count goes down; the caller queues behind the others when it goes below zero |
| Kernel.Machine.Signal | system/signal.c:17-30 | the count goes up and the first waiting process is released |
| Kernel.Machine.SignalN | system/signaln.c:18-36 | the same n times under deferral |
| Kernel.Machine.SemReset | system/semreset.c:21-34 | all waiting processes are released and the count is set |
| Kernel.Machine.SemDelete | system/semdelete.c:17-35 | the entry is free and all waiting processes are released |
| Kernel.Machine.SemCreate | system/semcreate.c:20-27 | the next free entry round the table gets the count |
| Kernel.Machine.SleepMs | system/sleep.c:32-49 | a delay of zero yields, any other sleeps |
| Kernel.Machine.Wakeup | system/wakeup.c:13-18 | releases sleepers while the first key is not positive, under deferral |
| Kernel.Machine.ClockTick | system/platform/arm-qemu/clkhandler.c:30-37 | the first key goes down, the expired wake, otherwise the processor is rescheduled |
| Kernel.Machine.Receive | system/receive.c:15-24 | takes the message or waits for one |
| Kernel.Machine.FinishReceive | system/receive.c:21-24 | a process that runs again after waiting has a message to take |
| Kernel.Machine.RecvTime | system/recvtime.c:17-32 | takes the message or waits for a limited time |
| Kernel.Machine.FinishRecvTime | system/recvtime.c:36-43 | the message if there is one, otherwise TIMEOUT |
| Kernel.Machine.RecvClr | system/recvclr.c:15-24 | takes a message that is there, never waits |
| Kernel.Machine.Send | system/send.c:18-40 | refused if one is waiting; a receiver, timed or not, becomes ready |
| Kernel.Machine.Suspend | system/suspend.c:18-40 | only the current or a ready process, never the null process |
| Kernel.Machine.Resume | system/resume.c:18-30 | only a suspended process |
| Kernel.Machine.KillNotify | system/kill.c:18-28 | the checks and the message to the parent |
| Kernel.Machine.KillRemove | system/kill.c:34-55 | the process leaves whatever its state says it is on; a waiting one gives its count back |
| Kernel.Machine.Create | system/create.c:34-54 | the next free entry becomes a suspended process |
| Sched.SomeoneCanRun | system/resched.c:40 | the null process is current or ready, so there is always somebody to dispatch |
| Sched.ReschedOK | system/resched.c:18-43 | resched leaves exactly one current process, of the highest priority unless deferral is on |
| Sched.InsertDescending | system/insert.c:22-34 | insertion keeps descending keys |
| Delta.InsertRemaining | system/insertd.c:22-39 | the newcomer has its delay to go, everybody else what it had |
| Delta.InsertOrder | system/insertd.c:24-28 | the newcomer stands behind all due no later and before all due later |
| Delta.RemoveRemaining | system/unsleep.c:39-44 | everybody else has what it had |
| KernelRun.Step | system/kill.c:34-55 | each call on the tables does what the specification says, answers what it says, and keeps the lists threaded |
| KernelRun.Execute | system/queue.c:22-29 | over every run the lists stay threaded, the invariant holds, and the state and all answers are the specified ones |
| KernelRun.Boot | system/initialize.c:114-199 | from power-on to a state that satisfies the invariant |
| RunLaws.StateDecidesList | system/kill.c:34-55 | after every run the state of a process says exactly which list it is on |
| RunLaws.HighestPriorityRuns | system/resched.c:27-43 | after every run exactly one process runs, and without deferral no ready one has a higher priority |
| RunLaws.CountTellsQueue | system/wait.c:29-33 | after every run a negative count is minus the queue length, another means an empty queue |
| ProcLaws.EntriesLaw | system/kill.c:34-55 | what every call does to the entry and the place of every process: state, message, priority and parent |
| CallerLaws.RunAgrees | system/receive.c:15-24 | over every run a ledger of the calls and their answers alone tells who is alive, who is suspended and which message waits for whom, and it tells the answers of send, receive, recvtime, recvclr, resume, kill and create |
| CallerLaws.MessagesLaw | system/send.c:18-40 | in every run from start-up whatever receive, recvtime or recvclr takes was delivered, with these contents, by a send answered OK or by the kill of a child, and since then neither taken nor replaced |
| CallerLaws.WhereFrom | system/receive.c:21-24 | a waiting message has exactly one delivery behind it, so none is answered twice |
| CallerLaws.KilledLaw | system/kill.c:34-55 | whatever state a process was in, after its kill it is free, not current and on no list; all others change at most between ready and current |
| CallerLaws.DeadStaysGone | system/kill.c:49-54 | along every run in which no create answers its number, who is not alive stays free, not current and on no list |
| CallerLaws.KilledStaysKilled | system/kill.c:34-55 | so does who has been killed |
| CallerLaws.GoneIsRefused | system/resume.c:18-23 | it can be neither resumed, suspended, sent to nor killed |
| CallerLaws.FindPidLaw | system/create.c:142-150 | the search answers the first free entry round the table, and none iff no tried one is free |
| Calls.FindSemLaw | system/semcreate.c:40-49 | the search answers the first free semaphore round the table and goes on behind it next time |
| Calls.NoSemLeft | system/semcreate.c:40-50 | no semaphore is granted iff all are in use |
| BlockLaws.WhoMayWait | system/wait.c:29-35 | after a process has blocked on a semaphore resched leaves a running process iff rescheduling is not deferred and somebody is ready, which is certain unless it is the null process |
| BlockLaws.WhoMaySleep | system/sleep.c:41-47 | the same for sleep and for a timed receive |
| BlockLaws.WhoMayStop | system/receive.c:17-20 | the same for receive, and for a process that suspends or kills itself |
| BlockLaws.NullProcessBlocks | system/resched.c:27-43 | after start-up the null process creates a semaphore with no count; whatever it blocks in then, nobody is left |
| BlockLaws.DeferredProcessBlocks | system/resched.c:18-21 | a run from start-up to a process that has deferred rescheduling; whatever it blocks in then, nobody runs |
| Semaphores.OtherCallsKept | system/send.c:33-38 | a call that is not about a semaphore leaves all counts and queues alone |
| SemaphoreLaws.QueueMoves | system/signaln.c:28-34 | what every call does to the queue and the entry of every semaphore |
| SemaphoreLaws.CallBalance | system/signal.c:26-28 | the processes a call lets past wait are paid for by count and signals |
| SemaphoreLaws.RunBalance | system/wait.c:29-35 | over every run without reset or deletion, processes past wait and count left equal initial count and signals, kills included |
| SemaphoreLaws.FirstComeFirstServed | system/signal.c:26-28 | nobody gets past wait before one who waits in front of it |
| SleepLaws.OnlyTheClockCounts | system/unsleep.c:39-44 | no call but the clock changes the time a sleeper has left; only a message or a kill ends a sleep early |
| SleepLaws.SleepsAsAsked | system/insertd.c:22-39 | a process that goes to sleep has the delay it asked for |
| SleepLaws.InWakingOrder | system/insertd.c:24-28 | sleepers stand in the order of their deadlines |
| SleepLaws.ClockCounts | system/wakeup.c:14-16 | a tick takes one from everybody and wakes exactly those with none left, with the exact exception |
| ZeroWait.NothingTaken | system/recvtime.c:25-32 | after a timed receive of no ticks the next tick takes nothing from any other sleeper |
| ZeroWait.FiveTicksStayFive | system/recvtime.c:17-32 | a run from start-up after which a tick leaves a sleeper with the five ticks it had |
| ZeroWait.EveryTickCounts | system/platform/arm-qemu/clkhandler.c:30-37 | in every run without a timed receive of no ticks all sleepers have time left, so that each tick takes exactly one from everybody and wakes exactly those who had one |
| ReadyLaws.BehindItsEquals | system/insert.c:22-34 | a process made ready stands behind all of its own or a higher priority, before all of a lower one |
| ReadyLaws.NobodyOvertaken | system/resched.c:34-42 | whatever is called, nobody on the ready list is overtaken by one behind it |
| TurnLaws.DefersLaw | system/resched.c:67-81 | only beginning and ending deferral changes how deeply it is nested: what a call defers for itself it ends itself |
| TurnLaws.DeferUndefer | system/resched.c:67-81 | deferral that is ended at once has no effect |
| TurnLaws.PeersRotate | system/resched.c:27-43 | resched gives the processor to the first ready process of the current one's priority and puts the current one behind the last of them; with none nothing changes |
| TurnLaws.RoundRobin | system/platform/arm-qemu/clkhandler.c:30-37 | while no sleeper is due and rescheduling is not deferred, after n ticks the n-th process of the ring of highest priority runs, counted round |
| PortSpec.SlotThere | system/ptsend.c:29-38 | a sender that passes the check finds a slot |
| PortSpec.MessageThere | system/ptrecv.c:28-38 | a receiver that passes the check finds a message |
| PortSpec.CheckTells | system/ptsend.c:29-32 | the check finds a cleared port out iff the sequence number has not come round |
| PortSpec.CountMeans | system/ptcount.c:32-43 | what the count means, with released receivers |
| PortSpec.ClearBegunInv | system/ptclear.c:21-42 | limbo, a new sequence number and released senders keep the accounts of every port |
| PortSpec.ClearEndedInv | system/ptclear.c:43-48 | the port starts afresh with all its slots free |
| Ports.System.PtInit | system/ptinit.c:29-43 | all ports free, all nodes on one list |
| Ports.System.PushNode | system/ptsend.c:42-55 | a node moves from the free list to the end of the port's list |
| Ports.System.PopNode | system/ptrecv.c:37-44 | the first node moves to the free list, its message is returned |
| Ports.System.Dispose | system/ptclear.c:24-32 | every message is disposed of, in order |
| Ports.System.ClearFirst | system/ptclear.c:21-45 | the first part of clearing, messages spliced onto the free list |
| Ports.System.ClearSecond | system/ptclear.c:43-46 | the receivers' semaphore |
| Ports.System.ClearThird | system/ptclear.c:48 | the new state; ptdelete also moves the place to search from |
| Ports.System.PtCreate | system/ptcreate.c:19-45 | the next free port round the table, a new sequence number, semaphores or none |
| Ports.System.PtSend | system/ptsend.c:21-58 | refused, blocked, or sent at once |
| Ports.System.PtSendRest | system/ptsend.c:29-58 | a released sender sends iff the port is as it was |
| Ports.System.PtRecv | system/ptrecv.c:20-47 | refused, blocked, or the first message at once |
| Ports.System.PtRecvRest | system/ptrecv.c:28-47 | a released receiver gets the first message iff the port is as it was |
| Ports.System.PtReset | system/ptreset.c:19-26 | only an allocated port is cleared, and stays allocated |
| Ports.System.PtDelete | system/ptdelete.c:18-26 | only an allocated port is cleared, and becomes free |
| Ports.System.PtCount | system/ptcount.c:24-43 | the count as specified |
| PortRun.Step | system/ptsend.c:20-58 | each event on the tables does what the specification says, the answer to the caller included |
| PortRun.Execute | system/ptclear.c:21-48 | the same over every interleaving from start-up |
| PortRun.PortLaws | system/ptrecv.c:28-47 | after every run: never over capacity, delivered is a prefix of sent in order, free and queued nodes make up the pool, nobody is stranded in an old epoch |
| PortRun.PoolConserved | system/ptclear.c:36-37 | no run creates or loses a message node |
| PortSpec.FindPortLaw | system/ptcreate.c:24-32 | the search answers the first free port round the table, none iff no tried one is free, and where the next search starts |
| PortCallers.Histories | system/ptsend.c:21-58 | a book kept of calls and answers alone, with the message of every call still inside the port, tells the answer to every event: refused, at once, blocked, which message, which port; and it stays in step with the tables |
| PortCallers.RunHistories | system/ptrecv.c:20-47 | the same for every event of every run |
| PortCallers.FirstInFirstOut | system/ptrecv.c:29-47 | after every run from start-up what the receivers were answered since the last clear is a prefix of what was sent with the answer OK, each message being the one its send named, in order; the rest is what the port holds, never more than its capacity |
| PortCallers.CountsTold | system/ptsend.c:29-30 | the counts of a port's semaphores: room left after the messages held and the senders inside, messages held less the receivers inside |
| PortCallers.CountTold | system/ptcount.c:24-43 | what the count answers, from the calls made and their answers |
| PortSemaphores.KernelSemaphore | system/wait.c:29-35 | the kernel's wait, signal, reset and deletion do to count and queue what the port specification says |
| PortSemaphores.KernelCreates | system/semcreate.c:20-27 | a created semaphore is what a new port has |
| PortRun.ResetCapacity | system/ptclear.c:40-43 | a port that is created and later reset has the capacity it was created with iff that fits 16 bits |
| PortRun.CapacityLost | system/ptclear.c:40-43 | a port created for 65536 messages holds none after a reset |
| PortRun.NegativeCountNotEmpty | system/ptcount.c:32-43 | a run after which the count is negative and the port holds a message |
| PortStale.StaleCheckPasses | system/ptsend.c:29-32 | a run from start-up with 2^32 resets after which a process blocked since before the first passes the check, as a sender without a slot, as a receiver without a message |
| Heap.CanonicalUnique | system/freemem.c:30-67 | the free list is a function of the set of free bytes |
| Heap.Coalesce | system/freemem.c:49-67 | giving a block back keeps the list increasing and nowhere touching |
| Heap.GivenBytes | system/freemem.c:49-67 | it adds exactly the freed bytes |
| Heap.CarvedBytes | system/getmem.c:28-42 | cutting bytes off either end of a block removes exactly those bytes |
| Heap.Neighbours | system/freemem.c:38-47 | looking at two neighbours finds every overlap |
| Heap.Rewritten | system/getmem.c:29-42 | the memory words written leave the list linked and the count in the head off by the same constant modulo 2^32 |
| Allocator.Store.constructor | system/meminit.c:18-27 | one block, the whole heap, whatever the head's length was |
| Allocator.Store.GetMem | system/getmem.c:17-46 | first fit from the low end for any unsigned request; fails iff no block is large enough; the list stays as it is on success iff the size rounds to none |
| Allocator.Store.GetStk | system/getstk.c:17-51 | last fit from the high end for any unsigned request; fails iff no block is large enough; the list stays as it is on success iff the size rounds to none |
| Allocator.Store.FreeMem | system/freemem.c:19-69 | for every address and unsigned size: succeeds iff the start is inside the bounds and what is checked meets no free block; then memory holds a free list iff the range has bytes and ends below 2^32, or touches the block before it and that block does with its length modulo 2^32; an ordinary range leaves the list inside the heap iff it ends there; a refused free changes nothing |
| Allocator.Store.FreeStk | include/memory.h:16-19 | from the highest word of a stack block back to the block, for every address and unsigned size, then as freemem |
| Allocator.InsertOutcome | system/freemem.c:49-67 | the writes of freemem leave a free list iff the range keeps it, and then the expected one |
| HeapRun.Step | system/freemem.c:19-69 | held and free blocks stay pairwise disjoint and cover the heap, whatever sizes are asked for; giving back a held block always succeeds |
| HeapRun.Execute | system/freemem.c:19-69 | the same over every run; once nothing is held the heap is one block again |
| HeapRun.GetThenFree | system/getmem.c:26-47 | getmem and freemem restore the list exactly iff the size does not round to none |
| HeapRun.StackThenFree | system/getstk.c:30-51 | getstk and freestk restore the list exactly for every size |
| HeapRun.OrderOfFrees | system/freemem.c:30-67 | freeing the same blocks in any order gives the same list |
| Heap.GivenBelow | system/freemem.c:19-23 | the list that freemem leaves is inside the heap iff the freed range ends there |
| HeapRun.FreeBehindTheHeap | system/freemem.c:19-23 | after start-up the eight bytes behind the heap are freed without complaint and join the list |
| QuickSort.ScanRight | lib/qsort.c:64-87 | the right-hand scan keeps less, unknown, equal, unknown, greater |
| QuickSort.Partition | lib/qsort.c:39-106 | the partition loop terminates with less, equal, greater and a permutation |
| QuickSort.Exchange3 | lib/qsort.c:126-144 | the three-way exchange, also when two of its places coincide |
| QuickSort.Qs1 | lib/qsort.c:39-106 | sorted, a permutation, nested no deeper than the binary digits of the length |
| QuickSort.Qsort | lib/qsort.c:16-27 | the same for the whole array and every total preorder, at most floor(log2 n) + 1 deep |
| Crc32.MakeCrcTable | compile/uboot-tool/crc32.c:51-73 | every entry is the remainder of its byte |
| Crc32.LookUp | compile/uboot-tool/crc32.c:149 | one table step is eight steps of bitwise division |
| Crc32.EightBytes | compile/uboot-tool/crc32.c:149-152 | the unrolled step is eight single steps |
| Crc32.ComputeCrc | compile/uboot-tool/crc32.c:164-176 | the unrolled loop computes the bitwise remainder for every buffer and start |
| Crc32.CrcOfConcatenation | compile/uboot-tool/crc32.c:155-177 | the CRC of a concatenation continues from the CRC of the first part |
| Crc32.Residue | compile/uboot-tool/crc32.c:155-177 | for every buffer, the register over the buffer followed by its checksum ends as 0xdebb20e3 |
| Crc32.CheckValue | compile/uboot-tool/crc32.c:155-177 | the checksum of "123456789" is 0xcbf43926 |
| Crc32.ByteStepInjective | compile/uboot-tool/crc32.c:149 | for every byte the state update is one to one |
| Crc32.ShortBurstDetected | compile/uboot-tool/crc32.c:149-176 | buffers that differ only inside four consecutive bytes have different CRCs |

## Left out

- Context switch code, stack frames, interrupt entry, page tables and drivers: hardware; a switch is an update of the current process and every kernel call is one step with interrupts off.
- Priority changes (`chprio`): it neither requeues nor reschedules, so the scheduling law does not hold with it.
- Futures: they put processes in the waiting state without a semaphore.
- The in-memory file system, the remote disk and remote files, terminals and the network stack.
- Read and write modes of the local file system: stored, never checked by get or put.
- Crash consistency of the local file system: the order of writes is no journal, only the state after each call is claimed.
- Halts of the source (no free index block, data block or message node) are preconditions: `LfsVolume.Fits`, and a free node in `PortRun.EventOK`.
- Mutual exclusion inside the file system (`lf_mutex` and the directory semaphore): each file call is one step.
- The directory sector is a typed value; index, data and free sectors are bytes.
- LfsFormat.Format: what a write behind the disk overwrites is not modelled.
- File names are compared as strings; the character loops of `lfsopen` are not modelled.
- Kernel.Machine.Create: the search for a stack is a parameter, and the name, stack contents and descriptors are not modelled.
- Kernel.Machine.KillNotify: the count of processes and the halt after the last one are not modelled.
- Kernel.Machine.KillRemove: closing descriptors and freeing the stack are not modelled; a process that kills itself while rescheduling is deferred is not admitted (`BlockLaws.WhoMayStop`).
- Kernel.Machine.Wait: blocking by the null process or while rescheduling is deferred is not admitted in runs, because nobody may be left to run afterwards (`BlockLaws.WhoMayWait`).
- Kernel.Machine.Receive: the same (`BlockLaws.WhoMayStop`).
- Kernel.Machine.RecvTime: the same (`BlockLaws.WhoMaySleep`).
- Kernel.Machine.Suspend: a process that suspends itself while rescheduling is deferred is not admitted (`BlockLaws.WhoMayStop`).
- Kernel.Machine.Signal: counts are unbounded integers; 2^31 signals in a row are not modelled.
- Kernel.Machine.NewQueue: what a write behind the table overwrites is not modelled.
- Kernel.Machine.SleepMs: delays of 2^31 ticks or more, which turn negative, are not admitted, nor blocking as for Wait (`BlockLaws.WhoMaySleep`).
- Kernel.Machine.ClockTick: the clock of the QEMU platform; the time of day and the time slice are not modelled.
- PortRun.Execute: killing a process inside a port call is not modelled, and no process stays released while a port is cleared 2^32 times.
- Ports.System.PtSendRest: a process that stayed released while its port was cleared 2^32 times; it may pass the check without a slot (`PortStale.StaleCheckPasses`).
- Ports.System.PtRecvRest: the same, without a message.
- Ports.System.PtInit: the pool is an array of nodes instead of memory from `getmem`; what the disposal function does with a message is not modelled.
- Allocator.Store.GetMem: contents of allocated memory are not modelled.
- Allocator.Store.FreeMem: a range that ends exactly at 2^32 is not admitted, because it may be joined with whatever lies at address zero.
- Allocator.Store.FreeStk: the same.
- QuickSort.Qs1: an element is one value instead of a run of bytes, so the byte loops of the exchanges are single assignments.
- Crc32.ComputeCrc: words have 32 bits, also where the source's unsigned long has 64; the built-in table is represented by its generator.
