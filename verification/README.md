# libiapp in Dafny

A model of libiapp, an event library for kqueue systems, with proofs of what it
keeps over whole runs. The parts modelled are the ones with the most state:

* the event loop (`lib/libiapp/fde.c`): descriptor events with batched kernel
  changes, immediate callbacks run in rounds by generation, and timers;
* the socket state machine (`lib/libiapp/comm.c`): reads, writes, accepts,
  connects and datagrams as asynchronous operations, and the close protocol;
* server connections (`lib/libiapp/conn.c`) on top of it;
* the slab allocator (`lib/libiapp/shm_alloc.c`);
* the hand-over of accepted descriptors between threads (`src/srv/srv.c`).

Each part is written twice. A *value form* says what one step does to the state,
as a transition system whose labels are the choices of the outside world: what
system calls return, what the kernel delivers, how the threads interleave, and
what user callbacks do, which is an arbitrary script of calls. The laws are
proved of every run of it. An *imperative form* has the classes, fields, loops
and statement order of the source, and every method is proved to do what one
step, or one run, of the value form does. `EventLoop.Runloop` runs callbacks that
are scripts of loop calls. No method drives `FdeComm.Run` or the methods of
`ServerConn` from the loop: that a sequence of such calls is a run, to which the
laws apply, is said method by method.

| part | value form and laws | imperative form |
|---|---|---|
| times | `Timevals` | |
| event loop | `Fde`; `FdeLists`, `FdeRounds`, `FdeKernel`, `FdeTimers` | `FdeLoop` |
| comm | `Comm`; `CommInvariants`, `CommTraces`, `CommClosing` for one handler; `CommWorld`, `CommKernel`, `CommForgotten`, `CommBoundedClose`, `CommLaws`, `CommEnds`, `CommExamples` for loop and comm together; `CommMany` for any number of comms | `CommObject` |
| connection | `ConnLife` | `ConnObject` |
| allocator | `ShmAlloc`; `ShmAllocTiling`, `ShmAllocPeak` | `ShmAllocator` |
| threads | `Handoff` | `ServerObject` |

`Seqs` holds the few facts about tail queues that the rest uses.

## How to read the model

* An event is an id that is never used again; the loop is a map from ids to
  events, three lists of ids, the buffer of kernel changes not yet sent, and the
  kernel's table of registrations. A loop step is one callback, one timer, one
  `kevent` call or one entry of its result, so callbacks can do anything between
  any two of them.
* A handler of a comm only asks the loop to add, delete or free the comm's ten
  events, and never looks at the loop. Its requests are recorded in a `Port` and
  carried out by `CommWorld.Exec`. `World` is a loop with one comm in it; its
  runs contain any other activity in the same loop. `CommMany.Many` is a loop
  with any number of comms.
* `ConnLife.System` is a loop, a comm and the connection that owns it. The owner
  of the connection may call `conn_close` at any moment until the FREEING notice,
  any number of times, and answers an error by closing at once, later or never.
* A comm keeps a trace of what it did: operations started, callbacks made, bytes
  sent, datagrams taken and given back, cleanups and close callbacks.
* Users keep the rules of `Comm.Allowed`: no new operation on a closing comm, no
  two operations that watch the same side of the descriptor, and writes within
  their buffer. The source states these as comments and does not check them.

## Where the code and its comments differ

The model follows the code.

* The timer list is described as sorted by insertion, but the walk of
  `fde_add_timeout` (fde.c:474-479) stops at the first timer, so a fourth timer
  can land out of order. `FdeTimers.InsertKeepsSortedIff` says exactly when, and
  `FdeTimers.FourTimersUnsorted` is a run that does it.
* `fde_t_get_timeout` promises a wait capped by the caller's timeout
  (fde.c:543-550); the code does not cap it. `FdeTimers.SleepCappedIff` says
  exactly when the wait stays within the timeout, and `FdeTimers.WaitPastTimeout`
  is a wait of 5 s with a timeout of 1 s.
* `timeval_cmp` converts to unsigned, so it is the order of times only between
  times of the same sign: `Timevals.CmpIsTimeOrderIff`.
* `comm_read` returns 1, not 0 as its comment says (comm.c:961-1002).
* A write is never reported as completed: `comm_cb_write_cb` calls the owner only
  for results 0 and -1 (comm.c:362-364), so a whole write ends in EOF at the next
  readiness, and `conn_write_cb` takes that for an error:
  `CommLaws.StreamWriteLaw`, `ConnLife.ConnectionLife`.
* A close is forgotten when an in-progress connect ends last on a closing comm,
  since `comm_cb_connect` does not look for one: `CommForgotten.ForgottenCloseIff`,
  with the run `CommExamples.ForgottenRun`. A set-up datagram writer with nothing
  queued keeps a closing comm open for ever: `CommEnds.WriterCanEndIff`, with the
  run `CommExamples.IdleWriterExample`. `CommEnds.CloseCanEndIff` is the whole
  law: which closes can still end.
* `shm_alloc_init` says a missing first slab is made at the first allocation;
  no allocation makes a slab. A failed `malloc` returns with the lock held:
  `ShmAllocTiling.StuckIff`. `shm_alloc_new_slab` returns NULL also when it has
  made a slab.
* The room test of `shm_alloc_alloc` wraps: `ShmAllocTiling.StepKeepsInvIff`.
* The 100 ms re-arm of `thrsrv_run_deferred` can leave a fraction of a full
  second: `Handoff.LaterNormalisedIff`.

## Model

| member | source | states |
|---|---|---|
| Timevals.CmpIsTimeOrderIff | lib/libiapp/fde.c:410-423 | the comparison is the order of the two times in microseconds if and only if their second counts have the same sign |
| Timevals.DeltaReachesTarget | lib/libiapp/fde.c:556-570 | for proper times with the target ahead, the subtraction with borrow is a proper positive duration that ends exactly at the target |
| FdeLists.ListAgreement | lib/libiapp/fde.c:350-506 | in every run, with any re-entrant calls, an event is active exactly when it is on the main list, once, the callback and timer lists are exactly the active callbacks and timers, and the callback queue is the current generation followed by the next |
| FdeLists.NextKeepsSound | lib/libiapp/fde.c:350-726 | the same for any one step from any such state |
| FdeLists.AddTimerKeepsSoundIff | lib/libiapp/fde.c:425-480 | queuing an event of another kind as a timer, which the source only warns about, keeps the lists right if and only if the event was active already |
| FdeLists.EndRoundDrained | lib/libiapp/fde.c:508-529 | when a callback round ends, whatever is still queued belongs to the next round |
| FdeLists.EffectiveDo | lib/libiapp/fde.c:197-269 | sent or still buffered, the change of an add or delete comes to one registration more or less, also when the buffer is flushed by it |
| FdeRounds.RoundSoFar | lib/libiapp/fde.c:508-529 | at any moment of a round, what has fired followed by what is left is the queue at its start without what was taken off |
| FdeRounds.CallbackRound | lib/libiapp/fde.c:508-529 | a round fires exactly the queue at its start, in order, without those deleted or freed before their turn; nothing queued during it runs in it, and it never fires more than were queued, also when the generation counter wraps |
| FdeKernel.NextKeepsKernel | lib/libiapp/fde.c:197-269 | every disciplined step keeps: a registration belongs to an active descriptor event, and every active one is registered or in the batch being delivered |
| FdeKernel.KernelAgreement | lib/libiapp/fde.c:606-726 | in every disciplined run from an empty loop, whenever no delivery is pending the kernel watches exactly the active descriptor events |
| FdeKernel.ReachKeepsNotesIff | lib/libiapp/fde.c:676-686 | reaching a delivered event keeps the registrations right if and only if it is not an active one-shot event that has been registered again |
| FdeKernel.ReAddBreaksAgreement | lib/libiapp/fde.c:676-686 | a concrete run that deletes and adds a one-shot event while its delivery is pending ends with a registration of an inactive event |
| FdeTimers.InsertKeepsSortedIff | lib/libiapp/fde.c:449-479 | insertion keeps a sorted list sorted if and only if the new time is not after the first, not before the last, or not after the second; always so with at most two timers |
| FdeTimers.FourTimersUnsorted | lib/libiapp/fde.c:449-479 | a run from the empty loop that arms four timers and ends with the timer list out of order |
| FdeTimers.TimerRound | lib/libiapp/fde.c:572-604 | a timer round over a sorted list fires in time order, nothing early, no more than were due, and stops with nothing due |
| FdeTimers.TimerCount | lib/libiapp/fde.c:572-604 | in every timer round, for any callbacks and any list order: timers fired, plus due ones left, plus due ones deleted, are the due ones at the start plus those armed for now or earlier; nothing fires early |
| FdeTimers.RearmAtNowNeverEnds | lib/libiapp/fde.c:572-604 | a callback that arms its own timer for the current time fires any number of times in one round |
| FdeTimers.SleepPassesNoTimer | lib/libiapp/fde.c:531-570 | with a sorted list and a timer still to come, the wait passes no such timer, reaches the first one exactly, and does not depend on the caller's timeout |
| FdeTimers.SleepCappedIff | lib/libiapp/fde.c:531-570 | for proper times the wait is within the caller's timeout if and only if no timer is queued or the first one comes no later than that timeout |
| FdeTimers.WaitPastTimeout | lib/libiapp/fde.c:531-570 | a run from the empty loop after which a timeout of 1 s gives a wait of 5 s |
| FdeLoop.EventLoop.constructor | lib/libiapp/fde.c:42-64 | a new loop is the empty one |
| FdeLoop.EventLoop.Flush | lib/libiapp/fde.c:197-212 | the buffered changes reach the kernel in order and the buffer is empty, while what kernel and buffer come to together is unchanged |
| FdeLoop.EventLoop.PushChange | lib/libiapp/fde.c:214-234 | a change is appended, flushing first when the buffer is full |
| FdeLoop.EventLoop.Create | lib/libiapp/fde.c:95-180 | a new inactive event under a fresh id, all else unchanged |
| FdeLoop.EventLoop.Free | lib/libiapp/fde.c:182-195 | an active event is deleted first, then its id is gone |
| FdeLoop.EventLoop.RwAdd | lib/libiapp/fde.c:236-253 | a descriptor event becomes active, once, with its registration requested |
| FdeLoop.EventLoop.RwDelete | lib/libiapp/fde.c:255-269 | a descriptor event becomes inactive with its registration withdrawn |
| FdeLoop.EventLoop.CbAdd | lib/libiapp/fde.c:350-361 | a callback is queued last, stamped with the generation to run in |
| FdeLoop.EventLoop.CbDelete | lib/libiapp/fde.c:363-373 | a queued callback is taken off both lists |
| FdeLoop.EventLoop.TDelete | lib/libiapp/fde.c:375-385 | a queued timer is taken off both lists |
| FdeLoop.EventLoop.Add | lib/libiapp/fde.c:387-408 | adding an event of any kind is the specified step and keeps the lists right |
| FdeLoop.EventLoop.Delete | lib/libiapp/fde.c:482-506 | deleting an event of any kind is the specified step and keeps the lists right |
| FdeLoop.EventLoop.Walk | lib/libiapp/fde.c:474-478 | the walk stops at the first timer before the new time |
| FdeLoop.EventLoop.AddTimeout | lib/libiapp/fde.c:425-480 | an inactive event of any kind is queued at the specified place with its time, an active one is left alone; the lists stay right if and only if the event was active or is a timer |
| FdeLoop.EventLoop.CbRunloop | lib/libiapp/fde.c:508-529 | the loop ends for any callbacks, is a valid round of the transition system, and fires the queue at entry without what was taken off |
| FdeLoop.EventLoop.TRunloop | lib/libiapp/fde.c:572-604 | when from some callback on none arms a timer for now or earlier, the loop ends, is a valid run, and the first timer is then not due |
| FdeLoop.EventLoop.WaitForEvents | lib/libiapp/fde.c:606-622 | the buffered changes are sent with the wait, and one-shot registrations that fired are gone from the kernel |
| FdeLoop.EventLoop.RwRunloop | lib/libiapp/fde.c:606-726 | the wait and the deliveries are a valid run back to idle, for any result of the kernel and any callbacks |
| FdeLoop.EventLoop.SleepTime | lib/libiapp/fde.c:745-761 | no wait when callbacks are queued, otherwise the specified one |
| FdeLoop.EventLoop.Runloop | lib/libiapp/fde.c:728-766 | one turn of the loop is a valid run; before the wait no timer at the head is due, and the wait is none with callbacks queued and the computed one otherwise |
| CommInvariants.DoCmdKeepsFlags | lib/libiapp/comm.c:883-1166 | every allowed API call keeps the flags, the active events and the close protocol in agreement |
| CommInvariants.DispatchKeepsFlags | lib/libiapp/comm.c:139-771 | so does every handler of an active event, for every system call result and every callback script |
| CommTraces.DoCmdKeepsTrace | lib/libiapp/comm.c:958-1166 | every allowed API call keeps the accounts: starts against callbacks, bytes sent against the buffer, datagrams taken against those given back and queued, cleanups |
| CommTraces.DispatchKeepsTrace | lib/libiapp/comm.c:139-771 | so does every handler |
| CommWorld.CreatedInv | lib/libiapp/comm.c:778-874 | a new comm in any sound loop where nobody watches its descriptor satisfies the invariant |
| CommWorld.WorldInvariant | lib/libiapp/comm.c:139-1166 | in every run of loop and comm each of the ten events is active in the loop exactly when the comm believes so, and flags, close protocol and accounts agree; after the end none of the events exists |
| CommWorld.ExecSyncs | lib/libiapp/comm.c:139-1166 | carrying out the requests of a handler leaves the loop's events exactly as the comm expects |
| CommKernel.KernelWorldInvariant | lib/libiapp/comm.c:139-1166 | the comm never breaks the loop's discipline, so kernel agreement holds in every run where the other users keep it |
| CommMany.CommsKernelAgreement | lib/libiapp/comm.c:139-1166 | in every run of any number of comms in one loop, created and freed at any time, each agrees with the loop, and whenever no delivery is pending the kernel watches exactly the active descriptor events |
| CommClosing.ClosingDispatch | lib/libiapp/comm.c:139-771 | on a closing comm a handler ends its own operation and no other, and tells the owner of a read or write exactly once |
| CommClosing.ClosingApi | lib/libiapp/comm.c:883-956 | on a closing comm no allowed API call changes anything |
| CommForgotten.ForgottenCloseIff | lib/libiapp/comm.c:490-519 | in every run, a closing comm with nothing active and no cleanup scheduled exists if and only if an in-progress connect was the last operation to end on it |
| CommLaws.NoConnectNeverForgotten | lib/libiapp/comm.c:76-94 | a comm that is closing with no connect pending has its cleanup scheduled as soon as nothing is active, in every later run |
| CommForgotten.ForgottenForever | lib/libiapp/comm.c:490-519 | once forgotten, no later run schedules the cleanup |
| CommExamples.ForgottenRun | lib/libiapp/comm.c:490-519 | a valid run of loop and comm from comm_create: connect, close, connect completes; the connect ended last and the close is forgotten |
| CommForgotten.IdleWriterForever | lib/libiapp/comm.c:665-693 | a closing comm with a set-up datagram writer and an empty queue never gets its cleanup |
| CommExamples.IdleWriterExample | lib/libiapp/comm.c:1129-1144 | setting up a writer and closing, on any new comm, is such a case: no later run frees it |
| CommEnds.WriterCanEndIff | lib/libiapp/comm.c:665-771 | some continuation ends the datagram writer of a closing comm if and only if its write event is primed |
| CommEnds.CloseCanEndIff | lib/libiapp/comm.c:76-94 | some continuation frees a closing comm if and only if its close is not yet forgotten, it has no idle writer, and it has no in-progress connect that everything else is bound to end before |
| CommEnds.EndlessForever | lib/libiapp/comm.c:490-519 | each of those three cases lasts through every run |
| CommBoundedClose.BoundedClose | lib/libiapp/comm.c:883-956 | a closing comm with stream operations only is freed by the end of the second complete callback round, the owners of an active read and write are told of the close exactly once, and so is the close callback |
| CommLaws.ExactlyOnceCompletion | lib/libiapp/comm.c:958-1108 | in every run, for read, write and connect, accepted starts are the callbacks made plus one while active |
| CommLaws.StreamWriteLaw | lib/libiapp/comm.c:254-365 | the bytes sent for the current write are its buffer's slice from the start offset, as far as the offset says, never past the length; every write callback carries that count, and EOF means the whole length |
| CommLaws.DatagramConservation | lib/libiapp/comm.c:665-771 | datagrams accepted are those reported, once each and in order, followed by the queue, whose length is the counter and within the limit; all are reported when the comm is freed |
| CommLaws.NoStrandedFrame | lib/libiapp/comm.c:1146-1166 | in every run a non-empty send queue has its write event active in the loop |
| CommLaws.CloseSafety | lib/libiapp/comm.c:442-485 | cleanup is scheduled at most once and only when closing with all six operations inactive; the close callback is made exactly once and only with the free; afterwards no list, batch or registration leads to an event of the comm |
| CommObject.FdeComm.constructor | lib/libiapp/comm.c:778-874 | ten events are created and loop and comm are together the specified start state |
| CommObject.FdeComm.StartCleanup | lib/libiapp/comm.c:76-94 | specified step; the cleanup event is added at most once |
| CommObject.FdeComm.OnRead | lib/libiapp/comm.c:143-158 | specified step, loop and comm stay in step |
| CommObject.FdeComm.OnReadCb | lib/libiapp/comm.c:165-231 | specified step, loop and comm stay in step, for every result of read and every callback |
| CommObject.FdeComm.OnWrite | lib/libiapp/comm.c:237-252 | specified step, loop and comm stay in step |
| CommObject.FdeComm.WriteComplete | lib/libiapp/comm.c:254-298 | specified step: the owner is told unless bytes remain after a result of 0 |
| CommObject.FdeComm.OnWriteCb | lib/libiapp/comm.c:303-365 | specified step, for every result of write and every callback |
| CommObject.FdeComm.AcceptAll | lib/libiapp/comm.c:398-417 | the accept loop makes one callback for each descriptor, in order |
| CommObject.FdeComm.OnAccept | lib/libiapp/comm.c:367-440 | specified step: the accept event is added again, then errors are told |
| CommObject.FdeComm.OnCleanup | lib/libiapp/comm.c:442-485 | the close callback is made first, then all ten events are freed |
| CommObject.FdeComm.OnConnect | lib/libiapp/comm.c:490-519 | specified step: still in progress, or ended and told, with no look at closing |
| CommObject.FdeComm.OnConnectStart | lib/libiapp/comm.c:525-590 | specified step, for every result of connect and every callback |
| CommObject.FdeComm.OnUdpRead | lib/libiapp/comm.c:592-660 | specified step: the event is added again before the owner is told |
| CommObject.FdeComm.DrainAll | lib/libiapp/comm.c:675-682 | the closing loop returns every queued datagram as CLOSING, in order |
| CommObject.FdeComm.SendAll | lib/libiapp/comm.c:722-758 | the send loop returns datagrams from the head of the queue until the socket is full or the queue is empty |
| CommObject.FdeComm.OnUdpWrite | lib/libiapp/comm.c:665-771 | specified step: primed again exactly when datagrams are left |
| CommObject.FdeComm.Close | lib/libiapp/comm.c:895-956 | specified step; a second call changes nothing |
| CommObject.FdeComm.Read | lib/libiapp/comm.c:964-1003 | specified step; returns -1 while a read is active, otherwise 1 |
| CommObject.FdeComm.Write | lib/libiapp/comm.c:1005-1053 | specified step; returns -1 while a write is active, otherwise 0 |
| CommObject.FdeComm.Listen | lib/libiapp/comm.c:1055-1077 | specified step; returns -1 while listening, otherwise 0 |
| CommObject.FdeComm.Connect | lib/libiapp/comm.c:1079-1108 | specified step; returns -1 while connecting or for an address too long, otherwise 0 |
| CommObject.FdeComm.UdpRead | lib/libiapp/comm.c:1110-1127 | specified step; returns -1 while active, otherwise 0 |
| CommObject.FdeComm.UdpWriteSetup | lib/libiapp/comm.c:1129-1144 | specified step; returns -1 while active, otherwise 0 |
| CommObject.FdeComm.UdpWrite | lib/libiapp/comm.c:1146-1166 | the datagram is queued and 0 returned exactly when the writer is set up, not closing and below its limit |
| CommObject.FdeComm.Callback | lib/libiapp/comm.c:883-1166 | a user callback is its calls one after the other, each seeing the effects of those before |
| CommObject.FdeComm.Handler | lib/libiapp/comm.c:139-771 | each event runs its own handler, and the loop has carried out exactly the handler's requests |
| CommObject.FdeComm.Api | lib/libiapp/comm.c:883-1166 | a call from outside, on object and loop, is one step of the transition system and keeps the invariant of every run |
| CommObject.FdeComm.Run | lib/libiapp/comm.c:139-771 | a fired event and its handler, on object and loop, are one step of the transition system and keep the invariant of every run |
| ConnLife.HandlerTells | lib/libiapp/comm.c:303-365 | what the connection is taken to hear from the write handler is exactly what the handler reports, closing or not, and otherwise nothing changes but the progress |
| ConnLife.ConnectionLife | lib/libiapp/conn.c:59-252 | in every run from conn_new, whatever the owner does: the states are RUNNING, perhaps ERROR, perhaps CLOSING, in this order; the connection has its comm, alive, exactly until CLOSING; comm_close is called once, on entering CLOSING, and is never forgotten; the FREEING notice comes at most once, after the comm is freed, and until then its event is queued in the loop; the written count stays 0 |
| ConnLife.ForwardOnly | lib/libiapp/conn.c:108-136 | from any point of a run states are only added, in that order; after CLOSING no call of conn_close closes the comm again |
| ConnLife.FreedWithinThree | lib/libiapp/conn.c:59-136 | a closing connection has had its FREEING notice by the end of the third complete callback round, whatever else the loop runs |
| ConnObject.ServerConn.constructor | lib/libiapp/conn.c:262-342 | the buffer holds the repeating digits, and loop, comm and connection are the specified start of a life with the first write under way |
| ConnObject.ServerConn.Close | lib/libiapp/conn.c:108-136 | conn_close inside a callback: the first call closes the comm and drops it; once CLOSING, with the comm there or gone, a call changes nothing |
| ConnObject.ServerConn.OwnerClose | lib/libiapp/conn.c:108-136 | conn_close by the owner, on the objects, at any time before the FREEING notice, is the owner's step of the transition system and keeps the invariant of every life |
| ConnObject.ServerConn.WriteCb | lib/libiapp/conn.c:181-252 | specified change of the connection for either answer of the owner to an error, and the comm is as after the calls the connection makes |
| ConnObject.ServerConn.CommClosed | lib/libiapp/conn.c:87-101 | the connection's event, idle until now, is queued for the next callback round, the comm's own events are as before, and this is the end of the comm's cleanup step |
| ConnObject.ServerConn.Tidy | lib/libiapp/conn.c:59-85 | the loop calls this only once the comm is freed and no notice was given; it is that step of the transition system, gives the one FREEING notice, and leaves no event of the connection in the loop |
| ShmAllocTiling.FoundIff | lib/libiapp/shm_alloc.c:169-201 | the lookup finds an inactive block of exactly the size if there is one, and none of that size is free in a later slab than its own |
| ShmAllocTiling.RunKeepsLists | lib/libiapp/shm_alloc.c:132-260 | after every history each inactive block is on its slab's list once, nothing else is, and the counter is the length |
| ShmAllocTiling.StepKeepsInvIff | lib/libiapp/shm_alloc.c:203-260 | a call keeps the blocks of each slab laid end to end up to the slab's offset and inside the slab if and only if it does not cut a block past the top of size_t |
| ShmAllocTiling.Tiling | lib/libiapp/shm_alloc.c:132-260 | so the tiling holds after every history in which no call wraps |
| ShmAllocTiling.BlocksApart | lib/libiapp/shm_alloc.c:243-254 | two blocks of a slab do not overlap and lie below the slab's offset |
| ShmAllocTiling.ExactlyOneBlock | lib/libiapp/shm_alloc.c:243-254 | every byte handed out belongs to exactly one block |
| ShmAllocTiling.SmallNeverWraps | lib/libiapp/shm_alloc.c:225-229 | a request that fits in a size_t on top of every slab never wraps |
| ShmAllocTiling.WrapExample | lib/libiapp/shm_alloc.c:225-254 | a concrete request near the top of size_t is granted and moves the slab's offset back below a live block's end |
| ShmAllocTiling.RefusedIff | lib/libiapp/shm_alloc.c:203-260 | with memory to be had a request is refused if and only if no inactive block has its exact size and no slab has room |
| ShmAllocTiling.Granted | lib/libiapp/shm_alloc.c:203-260 | a granted block has the size asked for, was in nobody's use, and no other block changes |
| ShmAllocTiling.StuckIff | lib/libiapp/shm_alloc.c:237-241 | the lock stays held if and only if a block could be cut but its header could not be allocated, and then no call is possible any more |
| ShmAllocTiling.FreeThenAllocIff | lib/libiapp/shm_alloc.c:148-160 | freeing a block and asking for its size gives it back and restores the whole state if and only if no later slab has a free block of that size |
| ShmAllocPeak.PeakPerSize | lib/libiapp/shm_alloc.c:169-260 | after every history, for every size, the blocks ever cut are as many as were in use at the peak |
| ShmAllocPeak.OneSizeBound | src/srv/srv.c:456-460 | with one slab for n blocks of one size: the offset is the peak demand times the size, the peak is at most n, and a request is refused if and only if n are in use |
| ShmAllocator.Allocator.constructor | lib/libiapp/shm_alloc.c:15-40 | one empty slab, or none if the system refuses |
| ShmAllocator.Allocator.NewSlab | lib/libiapp/shm_alloc.c:42-127 | a slab is appended, or nothing changes; nothing is returned in either case |
| ShmAllocator.Allocator.LookupFreelist | lib/libiapp/shm_alloc.c:169-201 | the nested walk finds the specified block and puts it back into use |
| ShmAllocator.Allocator.Alloc | lib/libiapp/shm_alloc.c:203-260 | specified step and result; the lock is held at the end exactly in the specified case |
| ShmAllocator.Allocator.Free | lib/libiapp/shm_alloc.c:132-161 | the block goes inactive to the head of its own slab's list |
| Handoff.StepHeld | src/srv/srv.c:65-223 | one step of any thread moves accepted descriptors between queues, connections and closed, and makes or loses none |
| Handoff.DestinationIsHome | src/srv/srv.c:205-223 | where a descriptor goes depends on its flow alone when affinity is on and the flow id is not 0: thread (flow mod 8) mod the number of threads |
| Handoff.HandoffLaw | src/srv/srv.c:65-223 | in every interleaving each accepted descriptor is in exactly one queue, open in exactly one connection, or closed once; what is queued or connected is on its home thread; each thread's client count is the length of its list |
| Handoff.DrainEmpties | src/srv/srv.c:146-163 | a drain is always possible, empties the queue, and connects it in order of arrival without the failures |
| Handoff.LaterNormalisedIff | src/srv/srv.c:165-174 | the re-armed time is 100 ms on, and in normal form if and only if the fraction was not 0.9 s |
| ServerObject.ServerThread.Enqueue | src/srv/srv.c:65-84 | the descriptor is appended to the queue under the lock, or refused without memory |
| ServerObject.ServerThread.FinishSetup | src/srv/srv.c:124-144 | a connection is appended and counted, or the descriptor closed |
| ServerObject.ServerThread.RunDeferred | src/srv/srv.c:146-175 | the queue is emptied into connections in order, every failure is closed, each descriptor exactly one of the two, and the client count moves with the list |
| ServerObject.ServerThread.ConnFreed | src/srv/srv.c:86-102 | the connection leaves the list and the count |
| ServerObject.Threads.AcceptFd | src/srv/srv.c:177-224 | accepting, on the thread objects, is one step of the transition system |

## Left out

- FdeKernel.KernelAgreement: needs the discipline that no event is added for a (descriptor, filter) already watched, none while its own delivery is pending, and none freed while in the batch; the source leaves this to its users, and ReachKeepsNotesIff gives the exact limit for deliveries.
- FdeTimers.TimerRound: speaks of sorted lists and of callbacks that arm timers for later and in a place that keeps the order, since the list is not sorted otherwise.
- FdeLoop.EventLoop.TRunloop: asks that from some callback on none arms a timer for now or earlier; FdeTimers.TimerCount gives the exact length of a round for any callbacks, and RearmAtNowNeverEnds is one that does not end.
- FdeLoop.EventLoop.Runloop: asks the same of the callbacks of its timer round, and nothing of the others.
- FdeLoop.EventLoop.RwRunloop: a result of the kernel holds no error entries, which the source skips or, for EPERM and EPIPE, takes as readiness.
- FdeLoop.EventLoop.AddTimeout: a callback or descriptor event queued as a timer is followed no further than that call, since it is on a list it does not belong to.
- CommBoundedClose.BoundedClose: covers reads and writes; accepts, connects and datagram operations of a closing comm end only when the socket becomes ready, or never, and CommEnds.CloseCanEndIff says which.
- CommObject.FdeComm.OnCleanup: the close() of the descriptor between the callback and the frees is not modelled.
- CommMany.CommsKernelAgreement: nobody but comms uses the loop; other users are covered by CommKernel.KernelWorldInvariant.
- ConnObject.ServerConn.Tidy: the freeing of the buffers and of the connection itself is not modelled.
- CommLaws.ExactlyOnceCompletion: accept and datagram reads repeat by design and are not counted.
- Calls that break the rules of Comm.Allowed or name a freed event; the source does not defend itself against them.
- Calls a comm callback makes on other events of the loop: they are modelled as separate steps after the handler.
- Freed events whose memory is used again, and freeing an event that is in the batch being delivered; ids are never used again here.
- Kernel failures: rejected changes, EV_ERROR results, and the dropping of registrations by close(); an interrupted wait is one that returns nothing.
- FDE_T_USER events, and fde_ctx_free.
- Memory failures other than those of the allocator's block headers, queue entries and connections; comm_create always succeeds.
- Read buffers, socket addresses, error numbers, and the contents of datagrams.
- client_read_cb and its statistics: the server never starts a read.
- The allocator's use of memory maps and memory locking; slab sizes are given, and the server's product of two ints is taken as it comes out.
- Threads are modelled by interleaving of whole steps under the queue lock; statistics, option parsing, thread pinning and start-up are not modelled.
- thr.c, disk.c, netbuf.c, fd_util.c, debug and CPU helpers, and the client and datagram programs: they add easy members or repeat the connection's life.
