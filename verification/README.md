# A model of the platform's I/O core

The platform runs its code in fibers. Each task thread has a scheduler, its own fibers, and a poller that
runs in the thread's main fiber. A fiber that starts a slow operation builds an event record in its stack
frame, hands it over and suspends; whoever finishes the operation gives the record back to the poller of the
fiber's thread, which resumes the fiber. This project models that protocol, the IPC operations on top of it,
the intrusive lists it is built from, the directory and file copy jobs that run on the workers, the byte
buffer, and the alignment arithmetic of the allocator, and proves what they are for.

Check everything with `dafny verify dfyconfig.toml`.

## How it is modelled

- **The completion protocol** (`FiberIo`, `FiberIoInvariant`, `FiberIoParts`, `FiberIoSteps`, `FiberIoRuns`,
  `FiberIoSafety`, `FiberIoCompletion`, `Totals`, `FiberIoProgress`, `FiberIoStations`, `FiberIoHistory`,
  `FiberIoOrder`, `FiberIoAccounts`, `FiberIoScheduling`) is a state machine over any number of threads and
  fibers, and workers that are created on demand, which may fail. A step is a region that the code runs
  without interleaving: a locked region, one access to an eventfd or the semaphore, or a stretch of fiber code
  between two scheduling points. An eventfd is a counter. Pushing an event and announcing it are two steps,
  and so are reading a counter, moving the queue and each pop. Which active fiber runs next is left open, so
  every scheduling order is covered. `RunKeeps` carries the invariant over all runs; the theorems in
  `FiberIoSafety` and `FiberIoCompletion` are about every reachable state or every run. `FiberIoProgress`
  measures the work that a state has left and shows that each of the protocol's own steps uses some up, so
  that it comes to rest. `FiberIoHistory` and the modules after it read what happened off the steps of a run
  and compare it with the lists, counters and modes: order, accounts, and who runs.
- **IPC registrations** (`IpcRegistration`, `IpcCalls`, `IpcThread`) are a state machine of one thread: the
  kernel holds one pointer per socket, armed for one report. The number of events that one `epoll_wait`
  fetches is a parameter; the code uses one, and `BatchOfOneExactly` says why it must. `IpcCalls` and
  `IpcThread` say, for batches of one, what calls return, that events and timers are conserved, and who runs.
- **Sending** (`IpcSend`) is the record of a send, a class whose handler loops over what its system calls come
  to. `wire` and `rides` are ghost: what the kernel accepted, and the calls that carried the socket.
- **Lists** (`DoubleLinkedList`, `SingleLinkedList`) are linked objects in the heap; a ghost sequence of the
  nodes says what each operation does. `IoPoller` is the poller's two queues and drain loops on top of them.
- **Directory jobs** (`FileTree`, `PathNames`, `DirectoryJobs`): a file system maps paths to entries; the
  traversal reports visits with paths as strings, and each symbolic link as a link or like a file, which is
  left open; the loops of the two jobs are followed literally, and the results are stated about the file
  system alone.
- **File contents** (`FileCopy`): both loops are methods over a script of what the system calls come to.
- **Buffer** (`ByteOrder`, `MemorySpring`, `Buffer`) and **allocator** (`Remainders`, `Alignment`): positions
  and sizes wrap around at 32 bits where the code's do; masks are defined bit by bit for every width; the
  host's byte order and the machine's width are parameters. The heap holds any number of aligned blocks, in
  any interleaving of allocations, frees and writes by their owners.
- `Basics` holds what several models share.

The Linux and the Android pollers are the same file; the Android paths are cited. `tt_fiber_resume` switches
to the resumed fiber at once, which is what its body does.

## Results that go against expectation

- `FiberIo.SpawnsExactly`: in a group of 256 workers or more, a push that reserves no worker creates one all
  the same, because the variable that holds the slot has eight bits.
- `IpcRegistration.NoneForgotten` and `IpcRegistration.SharedSocketForgets`: every suspended call stays armed
  exactly if no two calls are on one socket; two calls lose the first.
- `IpcSend.PartialExactly` and `IpcSend.PartialWitness`: success can mean that part of the buffer was not sent,
  exactly if the first call that fails for good comes after some bytes and before all.
- `FileTree.LinksLeftOutExactly`: a copy leaves links out exactly if the traversal reports each as a link.
- `FileTree.CopyNoDirectory`: copying a "directory" that is a file succeeds with an empty directory.
- `Alignment.IncreasedExactly`, `Alignment.WellPlacedExactly` and `Alignment.Heap.MallocAlign`: rounding up near
  the top of the type gives zero; an aligned block is well placed, and the heap stays sound, exactly if its size
  does not wrap around.
- `Alignment.AddTestExactly` and `Alignment.MulTestExactly`: the overflow tests never fire for types narrower
  than `int`, because the operand of `~` is promoted.
- `MemorySpring.LimitKeptExactly`: the size limit of a buffer is not looked at while it doubles.
- `MemorySpring.GrowsExactly` and `MemorySpring.EndsExactly`: initialisation accepts springs whose doubling wraps
  around; sizes always grow exactly if the largest doubled size is at most 2 to the 31, and growing comes to an
  end exactly if the sizes that follow the least one do not fall below it. `MemorySpring.GrowsInCircles` is a
  spring for which it does not.
- `IoPoller.Poller.Finish` and `IoPoller.Poller.Send`: if the write to the eventfd fails, the event is queued all
  the same, and unannounced exactly if nothing announced before is still unread.
- `Buffer.Buf.Reserve`: a reservation whose 32-bit sum wraps around ends the process.

## Model

| member | source | states |
|---|---|---|
| FiberIoRuns.RunKeeps | platform/native/android-ndk/tt_io_poller_native.c:318-428 | every state of every interleaving of fibers, workers and pollers keeps the protocol's invariant: each event record is on exactly one list once, or in one hand; a fiber is inside an operation exactly while its record is in flight; every non-empty queue is announced |
| FiberIoRuns.StepKeeps | platform/source/os/tt_fiber.c:258-282 | each single step keeps it: sending, suspending, being resumed on the owner's thread, moving a list under its lock, draining it |
| FiberIoSafety.NoDeadRecordTouched | platform/native/android-ndk/tt_io_poller_native.c:323-328 | no step of any run reads or writes a record whose call has returned or which has been freed; in particular a producer touches nothing of its event after releasing the lock |
| FiberIoSafety.LinkedRecordsLive | platform/native/android-ndk/tt_io_poller_native.c:370-380 | every record on any queue, drained list or mailbox is valid memory, and one on the drained list of finished operations belongs to a fiber that is still suspended in that operation, so resuming fibers in the middle of the drain is safe |
| FiberIoSafety.ResumedWhileSuspended | platform/native/android-ndk/tt_io_poller_native.c:375-380 | the fiber that a poller resumes for a finished operation runs on that poller's thread, is suspended in exactly this operation, and its result is stored; a worker that finishes before the fiber suspends loses nothing |
| FiberIoSafety.ReadNeverFails | platform/native/android-ndk/tt_io_poller_native.c:367-368 | the poller's read of an eventfd always finds a positive counter, so the assertion on the byte count cannot fail |
| FiberIoSafety.NoLostWakeup | platform/native/android-ndk/tt_io_poller_native.c:339-358 | when no producer still has to write and the poller is not between read and drain, a zero counter means an empty queue |
| FiberIoSafety.WorkerFindsWork | platform/source/io/tt_io_worker.c:110-117 | a worker that has acquired the semaphore always pops an event, so its assertion holds |
| FiberIoSafety.ReceiverNotStranded | platform/source/os/tt_fiber_event.c:88-126 | a fiber suspended for its mailbox has an empty one, for all interleavings of local and remote sends |
| FiberIoHistory.StepMoves | platform/native/android-ndk/tt_io_poller_native.c:318-428 | every step moves the one record that it is about, handed over, taken off the head of a list or in somebody's hand, to the next station of its way, or none, and puts it at the tail of the list there |
| FiberIoHistory.RecordsMoveOn | platform/source/os/tt_fiber_event.c:88-140 | in every step of every run, a record starts where its kind starts and goes from station to station as its kind goes: work queue, worker, finished queue and local list of its owner's poller, done; or poller queue, local list, mailbox, receiver, and back to its owner or freed; and is never forgotten |
| FiberIoHistory.FirstInFirstOut | platform/source/io/tt_io_worker_group.c:192-211 | over every run, for every list of the protocol - work queue, both queues and local lists of every poller, every mailbox: what the steps gave to it, in their order, is what left it, in order, followed by what it holds |
| FiberIoHistory.PollerInOrder | platform/native/android-ndk/tt_io_poller_native.c:370-380 | over every run, of what was queued for a poller in the order of the steps that queued it, what the poller has handled is the first part, its drained list the next, its queue the last; so finished operations resume their fibers in the order in which they finished |
| FiberIoHistory.NothingTwice | platform/native/android-ndk/tt_io_poller_native.c:395-425 | over every run, no record is put on the same list or taken off it twice |
| FiberIoOrder.MessagesArriveInOrder | platform/native/android-ndk/tt_io_poller_native.c:411-420 | over every run, of the messages that other threads sent to a fiber, in the order of their sending steps, those that reached its mailbox are the first, followed by those on the drained list, followed by those on the queue |
| FiberIoOrder.ExitAfterPrefix | platform/native/android-ndk/tt_io_poller_native.c:398-403 | over every run, what a poller dispatched is a prefix of what was sent to it; it contains an exit event exactly when the poller has exited, and then only as its last element |
| FiberIoAccounts.AnnouncedOnce | platform/native/android-ndk/tt_io_poller_native.c:318-358 | over every run, every push on a poller's queue is announced by one write: the pushes are what the poller's reads have found, what the counter holds, and what is still to be written |
| FiberIoAccounts.WorkersCounted | platform/source/io/tt_io_worker_group.c:203-222 | over every run, the group counts as many workers as its work queue was ever long, no fewer than its least and no more than its largest number; in a group of fewer than 256 each of them runs, is to be created or could not be, and a larger group creates one with every push |
| FiberIoScheduling.StepSchedules | platform/source/os/tt_fiber.c:258-282 | in every step of every run, who runs on a thread is the fiber that the step resumes, else the scheduler's choice, else the one that ran; and the sleeping fiber that a step wakes is the one that it resumes |
| FiberIoScheduling.ResumedRuns | platform/source/os/tt_fiber.c:258-282 | a fiber that a step wakes runs at once on its own thread, and it is the only one |
| FiberIoScheduling.BlocksUntilMail | platform/source/os/tt_fiber_event.c:110-126 | a fiber waits for its mailbox from the step that blocks it to the step that gives it a message, and no other step makes it wait or stop waiting |
| FiberIoScheduling.FiberGoesOn | platform/source/os/tt_fiber.c:245-256 | in every reachable state, a fiber that runs has a step to take |
| FiberIoScheduling.PollerGoesOn | platform/native/android-ndk/tt_io_poller_native.c:241-282 | while no fiber runs on its thread, a poller has a step to take exactly unless it has exited or waits with zero counters and no active fiber |
| FiberIoScheduling.WorkerGoesOn | platform/source/io/tt_io_worker.c:105-120 | a worker has a step to take unless it waits at a semaphore that is zero |
| FiberIoCompletion.CountFollows | platform/native/android-ndk/tt_file_system_native.c:959-968 | over every run, how often a record's handler ran, its fiber was resumed for it and its call returned is determined by where the record is |
| FiberIoCompletion.ServedOnce | platform/native/android-ndk/tt_file_system_native.c:633-652 | over every run, an operation resumes its fiber at most once and returns at most once and not before; a file operation's handler runs at most once and before its fiber is resumed; a fiber has been resumed exactly if its record is no longer in flight |
| FiberIoCompletion.SettledWorkQueue | platform/source/io/tt_io_worker_group.c:203-222 | with workers created on demand, nothing stays on the work queue when nothing can move any more, unless no worker that was ever reserved could be created |
| FiberIoCompletion.SettledMeansServed | platform/native/android-ndk/tt_io_poller_native.c:241-282 | when nothing but fiber code can move, every record ever handed over has completed, except messages that their receiver has not dealt with, what is behind a running fiber of the poller's thread, what an exited poller leaves on its queues, and file operations when no worker could ever be created |
| FiberIoCompletion.QuietMeansReturned | platform/source/os/tt_task.c:276-286 | and once every thread is back in its poller, no fiber still waits for a file operation, unless no worker could be created, nor for anything but its message's receiver or a thread whose poller has exited |
| FiberIoProgress.EnergyFalls | platform/native/android-ndk/tt_io_poller_native.c:241-282 | every step of a worker, a poller or a producer that finishes its push lowers a measure of the work left |
| FiberIoProgress.InternalRunsEnd | platform/native/android-ndk/tt_io_poller_native.c:360-428 | from any state of any run, the protocol cannot take more of its own steps than that measure says, in whatever order |
| FiberIoProgress.ComesToRest | platform/native/android-ndk/tt_io_poller_native.c:241-282 | from any state of any run, without fiber code, a state is reached in which nothing but fiber code can move |
| FiberIoProgress.EveryRunServes | platform/native/android-ndk/tt_file_system_native.c:633-652 | in every run that has come to rest, an operation handed over has resumed its fiber exactly once, but for the exceptions above |
| FiberIo.SpawnsExactly | platform/source/io/tt_io_worker_group.c:203-222 | a push creates a worker exactly when it counts one, if the group has fewer than 256; a larger group gets one with every push |
| IpcRegistration.RunKeeps | platform/native/android-ndk/tt_ipc_native.c:357-508 | every run with batches of at most one event keeps the invariant of registrations, records and mailboxes |
| IpcRegistration.PointersAreLive | platform/native/android-ndk/tt_ipc_native.c:409-431 | in every run, every pointer that the kernel may still report, or that is being dispatched, is the null event or the record of a call that has not returned, even when several calls share a socket |
| IpcRegistration.BatchOfOneExactly | platform/native/android-ndk/tt_io_poller_native.c:46 | the poller never dispatches the record of a call that has returned, in any run, exactly if it fetches at most one event at a time |
| IpcRegistration.LargerBatchDangles | platform/native/android-ndk/tt_io_poller_native.c:256-275 | a concrete run for every larger batch size that ends with a dangling record as the next event to dispatch |
| IpcRegistration.NoneForgotten | platform/native/android-ndk/tt_ipc_native.c:815-817 | over every run, every suspended call is armed in the kernel or is the event in hand, at every point of the run, exactly if no two calls are on one socket at any point of it; arming again after EAGAIN included |
| IpcRegistration.SharedSocketForgets | platform/native/android-ndk/tt_util_native.h:57-67 | a concrete run with two calls on one socket in which the second replaces the registration of the first, which stays suspended with nobody to report it |
| IpcRegistration.ReceiveDelivers | platform/native/android-ndk/tt_ipc_native.c:459-508 | over every run, a receive returns success exactly if it delivers bytes, a socket, a fiber event or a timer, in every order in which these arrive, and any other result only after the socket was read |
| IpcRegistration.ReceiverHasNoMail | platform/source/os/tt_fiber_event.c:142-150 | over every run, a fiber suspended in an accept or a receive has neither a fiber event nor a timer |
| IpcCalls.CallsAccounted | platform/native/android-ndk/tt_ipc_native.c:357-508 | over every run, a call that has started is in progress or has returned, exactly one of the two |
| IpcCalls.EventsConserved | platform/source/os/tt_fiber_event.c:171-203 | over every run, each fiber event that was brought to a fiber has been delivered by exactly one of its calls or still waits for it, and so has each timer that expired: a call takes at most one of each and leaves the others |
| IpcCalls.CallReturns | platform/native/android-ndk/tt_ipc_native.c:409-508 | over every run, what a call returns is what its socket told and its mailbox held: bytes and passed sockets as received, success for a receive that got anything, else the end of the connection if it ended and a failure otherwise; a connect or a send returns its socket's result and only when there is one, an accept or a receive returns with that or with an event or a timer |
| IpcThread.NoticesInOrder | platform/native/android-ndk/tt_io_poller_native.c:411-420 | over every run, the fiber events that a poller fetches reach their fibers in order, none lost or doubled |
| IpcThread.ArmedAndDisarmed | platform/native/android-ndk/tt_util_native.h:57-71 | in every step, which registration changes and to what: armed by opening, by a call that starts, by a handler that found nothing, and with the null event by a receiving call that returns without its socket's event; disarmed when fetched |
| IpcThread.ResumedRuns | platform/source/os/tt_fiber.c:258-282 | over every run, a fiber sleeps from the start of its call until what the call waits for arrives, and then runs at once |
| IpcSend.Record.constructor | platform/native/android-ndk/tt_ipc_native.c:434-457 | a new send has sent nothing, reports failure, and is armed |
| IpcSend.Record.DoSend | platform/native/android-ndk/tt_ipc_native.c:720-783 | one run of the handler's retry loop, on the record's fields: it is `Handle` on what its system calls come to |
| IpcSend.StreamConserved | platform/native/android-ndk/tt_ipc_native.c:753-766 | after any calls, in however many handler runs: the kernel has accepted exactly the first `pos` bytes, in order; a passed socket rode on exactly one successful call, the first; a send that ends without success sent nothing, one that ends with success reports how much |
| IpcSend.HandleFeeds | platform/native/android-ndk/tt_ipc_native.c:767-770 | a handler run makes the first of the calls and leaves the others; it arms the registration exactly when it stops because the socket would block |
| IpcSend.HandleStops | platform/native/android-ndk/tt_ipc_native.c:767-771 | a handler run ends with the first call that would block, for which alone it arms the registration, unless the send is done before |
| IpcSend.RunsFeed | platform/native/android-ndk/tt_ipc_native.c:510-533 | it makes no difference where the socket would block: all handler runs together do what the calls do in a row |
| IpcSend.EndsExactly | platform/native/android-ndk/tt_ipc_native.c:753-782 | stated on the calls alone: a send finishes exactly if calls before any fatal failure take all the bytes, fails exactly if a fatal failure comes before that, and then has sent what the calls before it took |
| IpcSend.ReturnsExactly | platform/native/android-ndk/tt_ipc_native.c:772-782 | what a send returns, on the calls alone: by the first that fails for good, success if those before took anything, the end of the connection for ECONNRESET and EPIPE, a failure otherwise |
| IpcSend.PartialExactly | platform/native/android-ndk/tt_ipc_native.c:772-782 | a send reports success with bytes unsent exactly if the first of the calls that fails for good comes after some bytes were taken and before all were (a caller of `tt_ipc_send_skt` is not told how many) |
| IpcSend.PartialWitness | platform/native/android-ndk/tt_ipc_native.c:772-774 | two bytes, one accepted, then a reset connection: success, with one byte unsent |
| DoubleLinkedList.DNode.constructor | platform/include/algorithm/tt_double_linked_list.h:73-77 | a new node is on no list |
| DoubleLinkedList.DList.Count | platform/include/algorithm/tt_double_linked_list.h:85-94 | the number of nodes, as a 32-bit number |
| DoubleLinkedList.DList.PushHead | platform/include/algorithm/tt_double_linked_list.h:111-121 | puts the node in front; the list stays an acyclic chain whose `prev` inverts `next`; no node of another list changes |
| DoubleLinkedList.DList.PushTail | platform/include/algorithm/tt_double_linked_list.h:123-133 | puts the node at the end |
| DoubleLinkedList.DList.PopHead | platform/include/algorithm/tt_double_linked_list.h:135-149 | takes the first node off and unlinks it, or returns null for an empty list |
| DoubleLinkedList.DList.PopTail | platform/include/algorithm/tt_double_linked_list.h:151-165 | takes the last node off and unlinks it, or returns null for an empty list |
| DoubleLinkedList.DList.Clear | platform/include/algorithm/tt_double_linked_list.h:167-171 | empties the list and unlinks every node that was on it |
| DoubleLinkedList.DList.Contain | platform/include/algorithm/tt_double_linked_list.h:173-183 | whether the node is on the list |
| DoubleLinkedList.DList.Remove | platform/include/algorithm/tt_double_linked_list.h:185-211 | removes exactly that node and returns its successor; for a node that is on no list it does nothing and returns null |
| DoubleLinkedList.DList.Move | platform/include/algorithm/tt_double_linked_list.h:213-228 | concatenation; the source list ends up empty |
| DoubleLinkedList.DList.InsertBefore | platform/include/algorithm/tt_double_linked_list.h:230-245 | the node appears right before the given one |
| DoubleLinkedList.DList.InsertAfter | platform/include/algorithm/tt_double_linked_list.h:247-262 | the node appears right after the given one |
| DoubleLinkedList.WalksVisitAll | platform/include/algorithm/tt_double_linked_list.h:55-65 | on a valid list a walk along `next` visits the nodes in order and one along `prev` in reverse order, each node once, and ends: no cycle, and the directions are inverse |
| DoubleLinkedList.UnlinkedButListed | platform/include/algorithm/tt_double_linked_list.h:189-193 | null links identify an unlinked node except for the only node of a one-element list; comparing with the head, as removal does and the pushes' assertion does not, closes that gap |
| SingleLinkedList.SList.Tail | platform/include/algorithm/tt_single_linked_list.h:84-93 | the last node, or null |
| SingleLinkedList.SList.Count | platform/include/algorithm/tt_single_linked_list.h:95-104 | the number of nodes, as a 32-bit number |
| SingleLinkedList.SList.Clear | platform/include/algorithm/tt_single_linked_list.h:106-115 | empties the list and cuts every node's link |
| SingleLinkedList.SList.PushHead | platform/include/algorithm/tt_single_linked_list.h:122-128 | puts the node in front |
| SingleLinkedList.SList.PushTail | platform/include/algorithm/tt_single_linked_list.h:130-139 | puts the node at the end |
| SingleLinkedList.SList.PopHead | platform/include/algorithm/tt_single_linked_list.h:141-149 | takes the first node off, with its link cut |
| SingleLinkedList.SList.PopTail | platform/include/algorithm/tt_single_linked_list.h:151-170 | takes the last node off |
| SingleLinkedList.SList.InsertAfter | platform/include/algorithm/tt_single_linked_list.h:172-178 | the node appears right after the given one |
| SingleLinkedList.SList.Remove | platform/include/algorithm/tt_single_linked_list.h:180-196 | removes exactly that node and returns what followed it; for a node that is not on the list the list stays as it is, but the node's link is cut |
| SingleLinkedList.SList.FastRemove | platform/include/algorithm/tt_single_linked_list.h:198-212 | given the predecessor, the same result as `Remove` of a member |
| SingleLinkedList.SList.Move | platform/include/algorithm/tt_single_linked_list.h:214-224 | concatenation; the source list ends up empty |
| SingleLinkedList.SList.MoveCount | platform/include/algorithm/tt_single_linked_list.h:226-256 | splits the source at the smaller of `count` and its length, appends exactly that prefix in order and returns its length; from a list to itself nothing moves |
| SingleLinkedList.SList.Swap | platform/include/algorithm/tt_single_linked_list.h:258-261 | the two lists exchange their contents |
| IoPoller.Poller.constructor | platform/native/android-ndk/tt_io_poller_native.c:129-148 | both queues empty, both counters zero |
| IoPoller.Poller.Finish | platform/native/android-ndk/tt_io_poller_native.c:318-337 | queues the operation and announces it; if the write fails the operation is queued all the same, and the queue stays announced exactly if it was |
| IoPoller.Poller.Send | platform/native/android-ndk/tt_io_poller_native.c:339-358 | the same for an event sent to the poller |
| IoPoller.Detach | platform/native/android-ndk/tt_io_poller_native.c:370-373 | the locked region of a drain moves the whole queue to a list of the poller's own |
| IoPoller.Poller.WorkerIo | platform/native/android-ndk/tt_io_poller_native.c:360-383 | one wakeup for finished operations resumes the fibers of everything queued |
| IoPoller.Poller.PollerIo | platform/native/android-ndk/tt_io_poller_native.c:385-428 | one wakeup dispatches everything queued up to the first exit event, and says whether there was none |
| IoPoller.ResumesInOrder | platform/native/android-ndk/tt_io_poller_native.c:374-382 | the fibers are resumed in the order in which their operations finished, once per operation, and nothing else happens |
| IoPoller.BatchesDoNotMatter | platform/native/android-ndk/tt_io_poller_native.c:392-398 | however the events are split into drained batches, the poller does what one drain of all of them does |
| IoPoller.MailDelivered | platform/native/android-ndk/tt_io_poller_native.c:411-420 | each mailbox receives exactly the messages addressed to its fiber, in order, and a waiting fiber is resumed once if one came and not at all if none did |
| IoPoller.UpToExitExactly | platform/native/android-ndk/tt_io_poller_native.c:395-403 | the poller looks at its events up to the first exit event, and at all if there is none |
| IoPoller.RequestsHandedOn | platform/native/android-ndk/tt_io_poller_native.c:421-424 | the task is handed exactly the requests among the events, in order |
| IoPoller.WaitingResumed | platform/native/android-ndk/tt_io_poller_native.c:411-420 | the waiting fibers are resumed in the order of their first messages, each once |
| FileTree.CopyTree | platform/native/android-ndk/tt_file_system_native.c:1408-1454 | copying a subtree by its pre-order traversal fails only where the system refuses, the tree is strange or a followed link dangles, so every directory and file finds its parent and a free name; otherwise exactly the subtree appears, without the links that are reported as links and with what the others lead to; a failed copy leaves a part of that and nothing else |
| FileTree.CopyRoot | platform/native/android-ndk/tt_file_system_native.c:1396-1454 | copying into an empty directory succeeds exactly if nothing is strange, refused or dangling, and then the target has exactly what the source has, links left out or followed as they are reported, and nothing else has changed; a failed copy leaves a part of that |
| FileTree.CopyNoDirectory | platform/native/android-ndk/tt_file_system_native.c:1415 | a source that is no directory is not copied at all: its only entry is the root, and the copy succeeds |
| FileTree.LinksLeftOutExactly | platform/native/android-ndk/tt_file_system_native.c:1385-1427 | a copy that succeeds leaves all links out exactly if the traversal, which does not look at every entry's status, reports each of them as a link |
| FileTree.RemoveTree | platform/native/android-ndk/tt_file_system_native.c:1682-1722 | removing a subtree by its post-order traversal fails only where the system refuses or the tree is strange, so no directory is removed before it is empty; otherwise exactly the subtree disappears |
| FileTree.CopyStaysBelow | platform/native/android-ndk/tt_file_system_native.c:1396-1461 | however a copy ends, and whatever is visited, nothing changes but entries strictly below its target |
| FileTree.RemoveStaysBelow | platform/native/android-ndk/tt_file_system_native.c:1682-1722 | however a removal ends, it has only removed, and nothing outside its tree |
| FileTree.CopyStops | platform/native/android-ndk/tt_file_system_native.c:1419-1423 | a copy that fails has done exactly the visits before the first that fails, which itself changes nothing |
| FileTree.RemoveStops | platform/native/android-ndk/tt_file_system_native.c:1700-1714 | so has a removal |
| PathNames.SlashesMeanNothing | platform/native/android-ndk/tt_file_system_native.c:1373-1382 | leading, trailing and repeated slashes of a path mean nothing, and its components are names |
| PathNames.TailOf | platform/native/android-ndk/tt_file_system_native.c:1418 | the path of an entry below the root is the root, a slash if it has none, and a rest that names the entry and does not end in a slash |
| PathNames.ReRooted | platform/native/android-ndk/tt_file_system_native.c:1373-1382 | with or without slashes at the ends of source and target, the string built for an entry names the same entry below the target, and only the root's path is no longer than the prefix that is cut off |
| DirectoryJobs.FileSystem.RemoveAll | platform/native/android-ndk/tt_file_system_native.c:1664-1725 | the removal loop does what its visits do in order, whatever interruptions come between |
| DirectoryJobs.RemovalExact | platform/native/android-ndk/tt_file_system_native.c:1700-1714 | it succeeds exactly if nothing refuses, and then exactly the tree is gone; it fails in no other way, and then has removed entries of the tree only |
| DirectoryJobs.FileSystem.CopyAll | platform/native/android-ndk/tt_file_system_native.c:1397-1461 | the copy loop, with its path string and prefix lengths, does what its visits do in order, whatever interruptions come between |
| DirectoryJobs.FileSystem.CopyDirectory | platform/native/android-ndk/tt_file_system_native.c:1341-1466 | the whole job: it succeeds exactly if the old target can be removed, a directory made in its place and the source read, and then the target has exactly what the source has, links left out or followed as they are reported; however it ends, everything outside the target is as it was, and each entry of the target is as it was, gone, or as in the copy |
| DirectoryJobs.CopyOutcome | platform/native/android-ndk/tt_file_system_native.c:1376-1394 | what the loop makes of the empty target, for a directory and for any other source |
| FileCopy.MoveAll | platform/native/android-ndk/tt_file_system_native.c:1598-1624 | the loop over `sendfile`, with its count and offset, is `Moves` on what the calls come to |
| FileCopy.MovesPrefix | platform/native/android-ndk/tt_file_system_native.c:1608-1616 | however transfers are cut, what has arrived is a prefix of the source, and success means all of it |
| FileCopy.MovesSucceed | platform/native/android-ndk/tt_file_system_native.c:1602-1606 | it succeeds exactly if some number of moves, none of them failed, together cover the source |
| FileCopy.MovesExactly | platform/native/android-ndk/tt_file_system_native.c:1602-1624 | by the moves before the first that fails alone: what has arrived, and whether the loop succeeds, fails or would go on |
| FileCopy.MovesEnd | platform/native/android-ndk/tt_file_system_native.c:1607-1613 | if each transfer moves something, one call per byte, and one for an empty file, are enough |
| FileCopy.WriteChunk | platform/native/android-ndk/tt_file_system_native.c:1633-1648 | the inner loop over partial and interrupted writes is `Writes` |
| FileCopy.ReadWriteAll | platform/native/android-ndk/tt_file_system_native.c:1625-1656 | the nested loop is `ReadsWrites` on what the calls come to |
| FileCopy.WritesPrefix | platform/native/android-ndk/tt_file_system_native.c:1636-1643 | however writes are cut or interrupted, what is added is a prefix of the chunk, and success means all of it |
| FileCopy.WritesSucceed | platform/native/android-ndk/tt_file_system_native.c:1636-1648 | a chunk is written exactly if some first puts, none of them failed, are enough for it, interrupted ones counting for nothing; exactly so many are used |
| FileCopy.WritesFail | platform/native/android-ndk/tt_file_system_native.c:1645-1647 | it fails exactly if it does not succeed and a put fails |
| FileCopy.ReadsWritesPrefix | platform/native/android-ndk/tt_file_system_native.c:1629-1632 | what has arrived is a prefix of the source, and success means all of it |
| FileCopy.ReadsWritesSucceed | platform/native/android-ndk/tt_file_system_native.c:1629-1652 | the loop succeeds exactly if reads that do not fail get the whole source and find its end, and the puts can be cut into just enough for each chunk, interrupted ones counting for nothing |
| FileCopy.ReadsWritesFail | platform/native/android-ndk/tt_file_system_native.c:1645-1655 | it fails only if a call failed, and goes on only if it ran out of reads or of puts without one that failed |
| FileCopy.ReadsWritesEnd | platform/native/android-ndk/tt_file_system_native.c:1649-1651 | if no call fails or is interrupted, a read per byte and one more, and a write per byte, are enough |
| FileCopy.LoopsAgree | platform/native/android-ndk/tt_file_system_native.c:1597-1656 | where both loops succeed they leave the same file, the source's contents |
| ByteOrder.BigInverse | platform/include/algorithm/tt_buffer_format.h:147-170 | a number that fits the width is got back from its bytes |
| ByteOrder.BigAt | platform/include/algorithm/tt_buffer_format.h:60-64 | each byte in network order is the quotient by its power of 256, modulo 256, most significant first |
| ByteOrder.NetworkOrder | platform/include/algorithm/tt_buffer_format.h:94-98 | what `hton` leaves in memory is the number in network order, on hosts of either byte order |
| ByteOrder.HostOrder | platform/include/algorithm/tt_buffer_format.h:105-117 | what `ntoh` makes of bytes in memory is the number that they are in network order |
| MemorySpring.Spring.NextSize | platform/source/memory/tt_memory_spring.c:165-193 | for every spring that initialisation accepts, a next size is a 32-bit number, and larger if the largest doubled size is at most 2 to the 31 |
| MemorySpring.NextSizeByRange | platform/source/memory/tt_memory_spring.c:165-193 | the least size below it, the double up to the largest doubled size, and one step of that more above it, exactly while 32 bits and the limit allow |
| MemorySpring.Spring.GrownSize | platform/source/memory/tt_memory_spring.c:76-85 | the doubling and stepping loop ends, at a size that is large enough or at none |
| MemorySpring.GrowsToFirst | platform/source/memory/tt_memory_spring.c:79-85 | it is the first of the sizes that is large enough, and there is none exactly if no size ever is |
| MemorySpring.Spring.Grow | platform/source/memory/tt_memory_spring.c:76-85 | the loop computes that size |
| MemorySpring.GrowsExactly | platform/source/memory/tt_memory_spring.c:174-178 | every next size is larger exactly if the largest doubled size is at most 2 to the 31 |
| MemorySpring.EndsExactly | platform/source/memory/tt_memory_spring.c:79-85 | for every spring that initialisation accepts, growing comes to an end from every size exactly if the sizes after the least one, of which 32 are enough to look at, do not fall below it |
| MemorySpring.GrowsInCircles | platform/source/memory/tt_memory_spring.c:51-58 | a spring that initialisation accepts and whose sizes repeat for ever |
| MemorySpring.LimitKeptExactly | platform/source/memory/tt_memory_spring.c:174-190 | doubling does not look at the limit: for every spring, sizes stay within it exactly if it is at least twice the largest size that is doubled, as far as doubling does not wrap around |
| Buffer.Buf.constructor | platform/source/algorithm/tt_buffer.c:82-85 | a buffer over fresh memory is empty and well formed |
| Buffer.Buf.Create | platform/source/algorithm/tt_buffer.c:58-90 | a small buffer starts with sixteen bytes of its own and cannot fail; a larger one grows from nothing to the spring's first size that is large enough, and fails exactly if there is none or no memory |
| Buffer.Buf.NoCopy | platform/source/algorithm/tt_buffer.c:108-126 | a read-only buffer holds the caller's bytes |
| Buffer.Buf.Extend | platform/source/algorithm/tt_buffer.c:260-274 | the outcome in every case; the memory is kept, and on success its new size is the first of the spring's that is large enough |
| Buffer.Buf.Reserve | platform/include/algorithm/tt_buffer.h:158-164 | it succeeds exactly if there is room, or the buffer is writable, the sum does not wrap around, and spring and allocator can grow it; the memory is kept; the process ends exactly if the 32-bit sum wraps around |
| Buffer.Buf.Put | platform/source/algorithm/tt_buffer.c:348-365 | appends all the bytes, exactly if the buffer is writable and can make room, or none; what is before them in memory stays |
| Buffer.Buf.Peek | platform/source/algorithm/tt_buffer.c:464-472 | the first bytes of the content, and nothing changes; a short peek fails |
| Buffer.Buf.Get | platform/source/algorithm/tt_buffer.c:411-417 | takes exactly the first bytes off the content; a short get fails and takes nothing |
| Buffer.Buf.IncRp | platform/include/algorithm/tt_buffer.h:197-205 | skips readable bytes, or fails |
| Buffer.Buf.DecRp | platform/include/algorithm/tt_buffer.h:207-215 | makes bytes before the read position readable again, or fails |
| Buffer.Buf.IncWp | platform/include/algorithm/tt_buffer.h:241-249 | takes bytes behind the write position into the content, or fails |
| Buffer.Buf.DecWp | platform/include/algorithm/tt_buffer.h:251-259 | drops bytes from the end of the content, or fails |
| Buffer.Buf.Backup | platform/include/algorithm/tt_buffer.h:267-273 | the positions, between which the content lies |
| Buffer.Buf.Restore | platform/include/algorithm/tt_buffer.h:275-281 | the positions become the given ones; the buffer is well formed exactly if they fit its memory, and then has the content that lies between them |
| Buffer.Buf.Refine | platform/source/algorithm/tt_buffer.c:312-342 | moves the content to the front of the memory without changing it, and reports the room gained |
| Buffer.Buf.PutNumber | platform/include/algorithm/tt_buffer_format.h:60-64 | a number appears in network order, whatever the host's, exactly if there is or can be room |
| Buffer.Buf.GetNumber | platform/include/algorithm/tt_buffer_format.h:71-83 | the number that the first bytes are in network order; a short get fails and takes nothing |
| Buffer.Buf.PeekNumber | platform/include/algorithm/tt_buffer_format.h:124-136 | the same without taking them |
| Buffer.RoundTrip | platform/include/algorithm/tt_buffer_format.h:60-184 | numbers of mixed widths put in a row are got back as they were by gets of the same widths, and what follows them is left |
| Buffer.ShortGetKeeps | platform/include/algorithm/tt_buffer_format.h:158-170 | a row of gets stops at the first that finds too few bytes |
| Buffer.RestIsSuffix | platform/source/algorithm/tt_buffer.c:464-472 | and leaves the rest as it is |
| Buffer.PutThenGet | platform/include/algorithm/tt_buffer_format.h:94-117 | on the buffer itself: if all puts succeed, the gets return the original values and empty the buffer |
| Buffer.GetAllOrNothing | platform/source/network/ssh/server/tt_ssh_server_conn.c:566-577 | a caller that backs up the positions and restores them when a get fails has read everything or changed nothing |
| Alignment.AndMask | platform/include/misc/tt_util.h:118 | the mask clears exactly the remainder by 2 to the `m`, for every width |
| Alignment.AlignDec | platform/include/misc/tt_util.h:115-119 | rounds down to a multiple of 2 to the `m` |
| Alignment.AlignInc | platform/include/misc/tt_util.h:109-114 | rounds up to a multiple of 2 to the `m` if that fits the type, and gives zero if not |
| Alignment.IncreasedExactly | platform/include/misc/tt_util.h:105-114 | it rounds up exactly if the result fits the type |
| Alignment.AlignedStays | platform/include/misc/tt_util.h:144-152 | aligning changes exactly what is not aligned, which the alignment check relies on |
| Alignment.SizeInOrderExact | platform/include/misc/tt_util.h:154-165 | for every order that the macro's `int` shift admits, the number of blocks is enough, and one fewer would not be |
| Alignment.AddTestExactly | platform/include/misc/tt_util.h:244-251 | the addition test reports exactly the overflows of types no narrower than `int`, and never one of a narrower type |
| Alignment.MulTestExactly | platform/include/misc/tt_util.h:222-229 | the same for the multiplication test |
| Alignment.WellPlacedExactly | platform/include/memory/tt_memory_alloc.h:153-164 | the returned address is a multiple of 2 to the order, with the hidden slot and the payload disjoint and inside the block, exactly if the size asked for does not wrap around |
| Alignment.Heap.MallocAlign | platform/include/memory/tt_memory_alloc.h:153-183 | what is allocated, returned and stored, with sums of the machine's width; every aligned block keeps its own place and its hidden slot exactly if the size asked for does not wrap around |
| Alignment.Heap.Write | platform/include/memory/tt_memory_alloc.h:153-164 | a write into what was asked for spares the hidden slot of every aligned block |
| Alignment.Heap.FreeAlign | platform/include/memory/tt_memory_alloc.h:166-169 | frees exactly the block that was allocated for the address, whatever was allocated, freed and written in between |

## Left out

- When a worker is created: the push that asks for one says how many, but the creation may come at any later time, which covers the code's order; the slots of workers are not kept apart.
- Fairness of the scheduler and the end of fiber code: `FiberIoProgress` says that the protocol comes to rest whenever fiber code pauses, not that fiber code ever does.
- The order of the scheduler's active list: any active fiber may run next, which covers it.
- In `FiberIo`, writes to an eventfd that fail for another reason than an interruption, and a full counter; `IoPoller` has failing writes.
- Timers in the completion protocol; they are in `IpcRegistration`.
- A connect that ends at once, without waiting, and a `lseek` that fails before a file is moved.
- What remains of a thread after its poller has exited: fibers keep their stacks in the model.
- Events whose source is set although the sender does not wait: the code's initialiser is for events that are answered, and the model ties the two.
- The sender's wait for a reply in `IpcRegistration`; it is in `FiberIo`.
- Closing a socket while a call is in progress on it, and EPOLLRDHUP alone as a reason to report.
- The contents of accepted connections and the descriptor flags set on them.
- `IoPoller`: mailboxes are sequences of events rather than linked lists, and resuming a fiber is recorded rather than run; interleaving is in `FiberIo`.
- What a symbolic link leads to is taken as fixed while a job runs; its permissions are those of the link.
- Absolute and relative paths are not told apart: `/a` and `a` are one path.
- Path components `.` and `..`, links on the way to the source or target, and a traversal that starts at a path that does not exist.
- A file copy that fails in the middle leaves part of that file (`FileCopy` says which); in `FileTree` a refused copy leaves no file, so the part of the copy that a failed job leaves consists of whole files.
- Changes to the source while it is copied, or by other programs.
- DirectoryJobs.FileSystem.CopyDirectory: takes the two traversals as given, consistent with the trees they walk.
- `__do_fread` and `__do_fwrite`: they start over at the beginning of the caller's memory after a short transfer, so they conserve nothing.
- Moving a list to itself with the plain move operations, which breaks it: the lists must differ.
- Shrinking a buffer, replacing a range in it, and hexadecimal text.
- Buffers with a spring whose largest doubled size is above 2 to the 31, whose growth may not end; the code's own comment expects at most 2 to the 30.
- Alignment.SizeInOrderExact: does not claim orders from 31 on, for which the macro's shift of an `int` is undefined.
- Where the allocator puts blocks; their address is a parameter. Running out of memory in `tt_xmalloc_align` ends the process.
- The DNS socket table, sockets other than IPC, thread creation, logging, status output, and everything else in the platform.
