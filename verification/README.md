# A verified model of the QRV microkernel's synchronisation and message-passing core

QRV is a 64-bit port of a message-passing microkernel. This project models the parts of the
kernel in which several threads, queues and counts have to stay in step, and proves what
they keep over every call and every run:

- **Mutexes and condition variables** — the user-mode atomics on the owner word, on any
  number of processors, interleaved with the kernel's lock, unlock, wait and signal calls.
- **Priority inheritance** — the walk a blocking lock makes along a graph of waiting threads.
- **Message passing** — send, receive, reply, error, pulse and re-pairing calls over a
  channel's send, receive and reply queues, with faults and restarts.
- **Connections and channels** — attach, detach and destroy, and the counts that decide when
  a connection object is freed, together with the threads whose messages hold them.
- **Multi-part messages, the ready bitmap, semaphores and kernel tracing.**

## How the model is laid out

Each part has a value-level model (states, calls as functions on states, invariants, lemmas)
and, because the kernel works by changing fields in place, an object-level one: a class whose
fields are the kernel's tables and whose methods make the same updates, loops and early exits
as the code. Every such method is proved to make exactly the step of the value-level model, so
what is proved about runs of the model holds of runs of the methods.

| file | part |
|---|---|
| `Base.dfy`, `Pril.dfy` | names; the priority list that every wait queue uses |
| `SyncWord.dfy`, `Mutex.dfy`, `MutexCalls.dfy`, `MutexKernel.dfy` | owner word, mutex and condvar protocol, what its calls answer, the calls as methods |
| `Inherit.dfy` | priority inheritance, model and methods |
| `Ipc.dfy`, `IpcPairing.dfy`, `IpcPriority.dfy`, `IpcRuns.dfy`, `IpcAnswers.dfy`, `IpcChannelOrder.dfy`, `IpcDestroy.dfy`, `IpcKernel.dfy` | message passing: queues, client/server links, priorities, runs, what each call answers, priorities on one channel, releasing a thread of a destroyed channel, the calls as methods |
| `Connect.dfy`, `ChannelDestroy.dfy`, `ConnectRuns.dfy`, `ConnectAnswers.dfy`, `ConnectKernel.dfy` | connections: holders and counts, the links and connections of a destroyed channel, attaching, what opening and closing answer, the calls as methods |
| `Coupling.dfy`, `CoupledAnswers.dfy`, `Teardown.dfy`, `CoupledRuns.dfy`, `TeardownKernel.dfy` | message passing and connections as one system: the calls, what sends and closes answer, channel destruction, runs, destruction as methods |
| `Iov.dfy` | length check and copy of multi-part messages |
| `Dispatch.dfy` | ready bitmap |
| `Semaphore.dfy` | semaphores |
| `TraceMasks.dfy`, `TraceKernel.dfy`, `TracePool.dfy` | trace masks and what is derived from them, the commands as methods, the handler pool |

`dafny verify dfyconfig.toml` checks the whole project.

## How to read it

Threads, pulses, connections, channels and processes are integers; pulses are below zero. A
step of a protocol is an `Event` with an `Enabled` condition and a function `Apply`; a `Run` is
a sequence of states joined by steps. Outcomes that come from outside the modelled code are
parameters of the step: whether a copy between address spaces faults and on which side, whether
a timeout is immediate, which free index a vector hands out, whether an object pool is empty.

Some promises one would expect turn out not to hold of the code in every case. The model keeps
the code as it is, shows a case, and proves exactly when the promise does hold:

- A blocking lock restores the priority order of the wait graph, except where the chain ends in
  a thread that is blocked sending: the server threads raised there may themselves wait for
  somebody below (`Inheritance.LockRestoresOrder`, `Inheritance.SendCaseBreaksOrder`).
- A kernel lock that finds an owner blocks or times out, except where it may not pass a waiter and
  the word it had read before was free: it then goes round once more, and parks on the second
  round if the owner is still there (`MutexCalls.OwnedBlocks`, `MutexCalls.OwnedGoesRound`,
  `MutexCalls.SecondRoundParks`).
- A reply that faults before the pair is dissolved leaves the server with a client that is no
  longer reply-blocked (`IpcPairing.PairingStep`, `IpcRuns.EarlyReplyDangles`).
- A receive can leave a message of higher priority behind, when it takes a pulse that was put
  before every message, takes pulses only, or fails after the channel has been noted; and a
  queued send can raise a server that is itself queued elsewhere
  (`IpcPriority.OrderStep`, `IpcRuns.FirstPulseInverts`, `IpcRuns.NestedSendInverts`). Ordinary
  traffic on a channel never does (`IpcChannelOrder.PlainRunsOrder`).
- Destroying a channel empties its send queue before its reply queue. When every descriptor on a
  connection has been closed and a client is still reply-blocked on it, that client holds the last
  link; its release sends a disconnect pulse to the channel if the channel asked for one, and that
  pulse stays unless the call is interrupted later on and started over
  (`Teardown.PulsesLeft`, `Teardown.RestartsAgree`, `CoupledRuns.DisconnectPulseStays`).
- The 32-bit total of a multi-part message is its length only if no part reaches 2^32 bytes
  (`Iov.TotalIsLength`, `Iov.WholeFits`, `Iov.HugePartCountsNothing`).
- Deleting one interrupt class turns off a switch that bits of the other kind still need
  (`TraceMasks.SwitchesStayComplete`, `TraceMasks.SwitchForgets`); a handler registered as null
  or registered twice puts the pool out of step (`TracePool.AddKeeps`, `TracePool.AddTight`),
  though never so far that the search for a slot leaves the array
  (`TracePool.SearchAlwaysStops`).

Where the code and its comments differ, the code is followed. The inheritance walk reads the
object a send-blocked thread waits on as a channel (`kernel/ker_sync.c:419`, `:432`) although it
is a connection; the model uses the connection's channel, which is what the loop needs.

## Model

| member | source | states |
|---|---|---|
| Pril.Add | kernel/nano/nano_misc.c:372-415 | the walk inserts behind every entry of equal or higher priority and before every lower one |
| Pril.InsertKeeps | kernel/nano/nano_misc.c:372-415 | an insertion keeps the list in priority order and free of repetition |
| Pril.InsertSplits | kernel/nano/nano_misc.c:342-369 | where the new entry stands: exactly the entries of equal or higher priority are before it, so equals stay in order of arrival |
| Pril.RemoveKeeps | kernel/nano/nano_misc.c:418-477 | a removal takes out that entry only and keeps order |
| Pril.RemoveSplits | kernel/nano/nano_misc.c:418-477 | a removal leaves everybody else in the order they had |
| Pril.RepositionKeeps | kernel/nano/nano_sched.c:1806-1833 | moving an entry to its new priority keeps order and members |
| Pril.RepositionMoves | kernel/nano/nano_sched.c:1806-1833 | a change of priority takes the entry to the place behind exactly the entries of its new or a higher priority, the others in the order they had |
| SyncWord.OwnerClean | kernel/kermacros.h:195 | an owner word is never zero and never has the WAITING bit |
| SyncWord.OwnerDecodes | kernel/kermacros.h:195-198 | process index and thread index are read back from an owner word, for all thread indices up to 0xfffd |
| SyncWord.WaitingOwnerDecodes | kernel/kermacros.h:195-198 | ... also with WAITING set |
| SyncWord.OwnerInjective | kernel/kermacros.h:195 | two threads with different process or thread index have different owner words |
| SyncWord.OwnerAliasesReserved | include/pthread.h:67-74 | exactly which process and thread numbers give one of the seven reserved words once WAITING is set |
| SyncWord.WaitingBit | include/pthread.h:66-67 | setting and clearing WAITING leaves the owner bits alone |
| SyncWord.EncodeTests | kernel/ker_sync.c:315-336 | the comparisons the code makes on the 32-bit word decide the same as comparisons of owner and WAITING flag |
| SyncWord.EncodeOwned | kernel/ker_sync.c:514-526 | testing the owner bits against one's own identity decides ownership |
| SyncWord.DecodeEncode | kernel/kermacros.h:195-198 | what is written to the 32-bit word is what is read back: the word determines owner and WAITING flag, for any table of threads with distinct names |
| SyncWord.DecodeMark | kernel/ker_sync.c:290-295 | or-ing WAITING into the word sets the flag and keeps the owner |
| SyncWord.DecodeStores | kernel/ker_sync.c:316-336 | the three values the code stores stand for free, free with WAITING, and owned by the caller |
| SyncWord.DecodeHolder | kernel/ker_sync.c:397-399 | looking a holder up by the two indices in an owned word finds the owner and nobody else, with WAITING set or not |
| MutexProtocol.StepKeeps | kernel/ker_sync.c:252-389 | every user-mode atomic and every section of a kernel call keeps exclusion, queue agreement, kernel serialisation and the wakeup obligations |
| MutexProtocol.RunKeepsInv | kernel/ker_sync.c:252-591 | ... in every state of every interleaving |
| MutexProtocol.MutualExclusion | include/pthread.h:272-274 | at most one thread holds the mutex at any time, and a thread is past its lock and before its unlock exactly if the word names it |
| MutexProtocol.OwnerChange | kernel/ker_sync.c:315-336 | ownership starts only from a word without owner, and ends only by the holder |
| MutexProtocol.NoWakeupIsLost | kernel/ker_sync.c:290-389 | if no step is pending any more, nobody is queued on a mutex without an owner who will wake them |
| MutexProtocol.HandOverCompletes | kernel/ker_sync.c:502-563 | an owed kernel unlock followed by the woken thread's lock ends with that thread holding and WAITING set exactly if others are queued |
| MutexProtocol.UnlockWakes | kernel/ker_sync.c:528-563 | the kernel unlock readies the first waiter and leaves the rest queued |
| MutexProtocol.UnlockInTwo | kernel/ker_sync.c:514-563 | a user-mode step of another thread between the two writes of an unlock, made by the unlock call or by a condvar wait, has the effect it would have had before the first, so an unlock may be taken as one step |
| MutexProtocol.WokenTakes | kernel/ker_sync.c:290-336 | a woken thread that is left alone takes a free mutex |
| MutexProtocol.TakesInPriorityOrder | kernel/ker_sync.c:310-336 | a thread that was not woken takes the mutex only past waiters of strictly lower priority; an unlock wakes a highest-priority waiter |
| MutexProtocol.SignalFindsWaiter | kernel/ker_sync.c:778-862 | in every run, a signal after a waiter has released the mutex finds that waiter queued unless its wait has already ended |
| MutexCalls.OwnedBlocks | kernel/ker_sync.c:308-389 | a kernel lock of an owned mutex leaves the word alone and queues the caller behind exactly the waiters of its own or a higher priority, the others where they were, or with a timeout leaves the queue as it was and the caller at rest; exactly unless waiters are in its way and the word it had read was free, when it goes round |
| MutexCalls.OwnedGoesRound | kernel/ker_sync.c:308-340 | ten steps of four threads after which a lock finds an owner and goes round |
| MutexCalls.SecondRoundParks | kernel/ker_sync.c:290-389 | left alone, the second round on an owned mutex blocks or times out |
| MutexCalls.FreeAnswers | kernel/ker_sync.c:315-389 | a lock of a free mutex by a thread that need not wait takes it exactly if WAITING is set; otherwise an unlocker is on its way, and the lock sets WAITING and parks |
| MutexCalls.FreePasses | kernel/ker_sync.c:338-389 | a thread that must wait does not take a free mutex: it goes round, or parks, after waking the first waiter if it had read the free word with WAITING |
| MutexCalls.CallEndsHolding | kernel/ker_sync.c:252-389 | over every run, a lock or a condvar wait that neither times out nor is forced out ends only by holding the mutex |
| MutexCalls.UnlockAnswers | kernel/ker_sync.c:502-563 | both unlocks take the mutex from a caller that holds it, from nobody else, and leave WAITING set while others are queued |
| MutexCalls.UnlockSends | kernel/ker_sync.c:528-563 | ... and send the first waiter, one of the highest priority, and nobody else on its way |
| MutexCalls.WaitAnswers | kernel/ker_sync.c:807-831 | a condvar wait queues its caller on the condvar behind exactly the waiters of its own or a higher priority, or timed out sends it for the mutex |
| MutexCalls.SignalWakes | kernel/ker_sync.c:835-862 | a broadcast empties the condvar and sends everybody for the mutex; a signal sends exactly one thread, of the highest priority and the first of it, and the others keep place and state |
| MutexCalls.ForcedAnswers | kernel/nano/nano_sched.c:1012-1105 | a thread forced out of the mutex is at rest, one forced out of the condvar goes for the mutex; the others keep their order |
| MutexCalls.PriorityAnswers | kernel/nano/nano_sched.c:1805-1833 | a change of priority moves the thread to its new place on the queue it waits in and touches nothing else |
| MutexKernel.Mutex.UserLockStep | include/pthread.h:272 | the compare-and-exchange on the 32-bit word makes the protocol step on the word read back; the mutex is acquired exactly if the word was zero, which then is the caller's owner word; otherwise the word is as before and the caller goes to the kernel |
| MutexKernel.Mutex.UserTryLockStep | include/pthread.h:273 | the try-lock acquires exactly if the word was zero; otherwise the word is as before and the caller is at rest |
| MutexKernel.Mutex.UserUnlockStep | include/pthread.h:274 | the exchange of the unlock macro leaves the word zero; the kernel call is owed exactly if the WAITING bit was set in it |
| MutexKernel.Mutex.LockMark | kernel/ker_sync.c:290-295 | afterwards the WAITING bit is set and the owner bits are as before, and the protocol's invariant holds, so no user-mode unlock can miss the locker |
| MutexKernel.Mutex.LockPreempted | kernel/ker_sync.c:296-302 | a call preempted before the kernel is locked keeps its order to acquire and what it did to the word, frees the kernel and leaves the invariant in force |
| MutexKernel.Mutex.LockRead | kernel/ker_sync.c:304-308 | the local copy is the 32-bit word, and what the protocol remembers is that copy read back |
| MutexKernel.Mutex.TryTake | kernel/ker_sync.c:315-336 | the exchange of zero for WAITING wins exactly if the word was free with WAITING; a word that was zero gets WAITING, and any other is left alone |
| MutexKernel.Mutex.LockChoose | kernel/ker_sync.c:308-389 | the comparisons of the local 32-bit copy with zero and with WAITING decide as the protocol does; with an owner in the word the caller ends on the queue behind exactly the waiters of its own or a higher priority, or timed out with the queue as it was, unless it goes round; with the word free and WAITING set it takes the mutex unless it must wait |
| MutexKernel.Mutex.ParkSelf | kernel/ker_sync.c:370-389 | the caller joins the wait queue at its place, or times out with the queue as it was; its order to acquire is gone and the kernel is free |
| MutexKernel.Mutex.LockStore | kernel/ker_sync.c:315-336 | the owner bits become the caller's, and the WAITING bit is set exactly if somebody is queued |
| MutexKernel.Mutex.SyncUnlock | kernel/ker_sync.c:502-563 | the masked comparison with the caller's owner word, the stores and the wakeup make the protocol's unlock |
| MutexKernel.Mutex.UnlockCall | kernel/ker_sync.c:593-619 | the invariant holds afterwards; whoever was first in the queue has left it with the order to acquire, the WAITING bit is set if anybody is left, and the word does not name the caller |
| MutexKernel.Mutex.CondvarRelease | kernel/ker_sync.c:778-806 | the wait is permitted exactly for the owner of the mutex; the caller then no longer owns it and holds the kernel, the first waiter has left with the order to acquire, and WAITING is set if anybody is left |
| MutexKernel.Mutex.CondvarEnqueue | kernel/ker_sync.c:807-831 | ... then joins the condvar queue behind exactly the waiters of its own or a higher priority, or times out with the queue as it was; either way with the order to re-acquire |
| MutexKernel.Mutex.CondvarSignal | kernel/ker_sync.c:835-862 | a broadcast leaves the condvar empty and everybody who was on it with the order to acquire; a signal takes off exactly the first; nobody else's order or position changes |
| MutexKernel.Mutex.Unblock | kernel/nano/nano_sched.c:1012-1105 | a thread forced out is on neither queue, has the order to re-acquire exactly if it waited on the condvar, and leaves the invariant in force and the others in their order |
| Inheritance.WalkBoosts | kernel/ker_sync.c:405-453 | the walk changes no wait edge and raises exactly the threads of the chain and of its final fan, all to the caller's priority |
| Inheritance.AdjustKeeps | kernel/nano/nano_sched.c:1835-1866 | repositioning a mutex waiter moves the recorded holder to the new head, so every mutex keeps its holder record |
| Inheritance.FanOutBoosts | kernel/ker_sync.c:419-447 | the loop over a server's threads raises exactly those that last received on the channel and run below |
| Inheritance.WalkRestoresOrder | kernel/ker_sync.c:391-455 | from a graph in order but for the new edge, the walk leads to a graph in order exactly if the final fan is safe |
| Inheritance.LockRestoresOrder | kernel/ker_sync.c:375-455 | if every wait edge pointed to equal or higher priority before a blocking lock, it does afterwards, new edge included, exactly if the final fan is safe |
| Inheritance.LockBoostsLeast | kernel/ker_sync.c:391-455 | no table of priorities above the old ones that has all edges in order is below the one the lock produces |
| Inheritance.LockAnswers | kernel/ker_sync.c:375-455 | a blocking lock puts the caller on the mutex's queue and changes nobody else's wait and no other queue's members; the recorded holders are those before but for the mutex whose head the caller becomes; exactly the threads of the walk run at the caller's priority; and without a walk the caller stands behind exactly the waiters of its own or a higher priority |
| Inheritance.SendCaseBreaksOrder | kernel/ker_sync.c:415-447 | a concrete graph in which the walk stops at a sender and leaves an edge out of order |
| InheritanceKernel.Kernel.AdjustPriority | kernel/nano/nano_sched.c:1664-1881 | the in-place priority change refines the model's, holder record included |
| InheritanceKernel.Kernel.BoostServers | kernel/ker_sync.c:419-447 | the loop over the server's threads refines the fan |
| InheritanceKernel.Kernel.Inherit | kernel/ker_sync.c:405-453 | the walk as a loop; it ends on cyclic graphs too, since each round raises a thread that was below |
| InheritanceKernel.Kernel.BlockOnMutex | kernel/ker_sync.c:375-455 | joining the queue, recording the holder and walking refine the blocking lock of the model: the caller waits for the mutex, and exactly the threads of the walk are raised to its priority |
| InheritanceKernel.Kernel.JoinQueue | kernel/ker_sync.c:378-394 | the queue with the caller in it; a head that is overtaken loses its record |
| Ipc.StepKeeps | kernel/ker_fastmsg.c:408-702 | after every call with every outcome a thread is on a send, reply or receive queue exactly when its state says so, send queues are in priority order, ordinary receivers stand before pulse-only ones, and no receiver waits beside something it would take |
| Ipc.SendKeeps | kernel/ker_fastmsg.c:408-702 | agreement of states and queues survives a send that is delivered, queued, refused, or faults on either side |
| Ipc.SendPulseKeeps | kernel/nano/nano_pulse.c:21-181 | ... a pulse that is delivered, queued at or above its priority, merged or refused |
| Ipc.ReceiveKeeps | kernel/ker_fastmsg.c:934-1176 | ... a receive that takes a message or a pulse, drops faulting senders on the way, blocks, times out or faults itself |
| Ipc.CurrentKeeps | kernel/ker_message.c:30-75 | ... a thread that goes on to work for another client |
| Ipc.UnblockKeeps | kernel/nano/nano_sched.c:833-1105 | ... a thread forced out of any of the three queues |
| Ipc.BoostServersKeeps | kernel/ker_fastmsg.c:665-683 | the boost raises exactly the threads that last received on the channel and run below, and moves those that are queued senders themselves |
| Ipc.JoinKeeps | kernel/ker_fastmsg.c:1161-1175 | a receiver joins so that pulse-only receivers stay last; testing the head is enough |
| IpcPairing.PairingStep | kernel/ker_fastmsg.c:1378-1381 | a call keeps "a thread's client is exactly the reply-blocked thread that names it as server, and a receive-blocked thread has none" exactly unless it is a reply that faults early on a served client |
| IpcPairing.EarlyFaultPairs | kernel/ker_fastmsg.c:1398-1413 | the early fault exit of reply breaks the pair exactly if the client has a server |
| IpcPairing.LinkingStep | kernel/nano/nano_sched.c:946-952 | every call, early-faulting replies included, keeps "whoever names a server is that server's client, and a receive-blocked thread has none", so a forced unblock never finds the client pointer missing |
| IpcPairing.CurrentPairs | kernel/ker_message.c:30-65 | re-pairing keeps the matching |
| IpcPairing.TakeMessagePairs | kernel/ker_fastmsg.c:1091-1096 | receiving makes receiver and sender name each other, takes the server from the receiver's former client, leaves every other thread's client alone and keeps the matching |
| IpcPairing.HandshakePairs | kernel/ker_fastmsg.c:522-523 | a direct delivery makes sender and receiver name each other, changes no other link and keeps the matching |
| IpcPriority.OrderStep | kernel/ker_fastmsg.c:656-683 | from a state in which every server of a floating-priority channel runs at least at the priority of everything queued there, a call leads to such a state exactly if a condition on the state before the call holds, for each of the eight calls |
| IpcPriority.BoostOrder | kernel/ker_fastmsg.c:665-683 | boosting settles the new entry, and disturbs no other channel exactly if no raised server is queued where a slower server works |
| IpcPriority.SendKeepsOrder | kernel/ker_fastmsg.c:408-683 | ... for send |
| IpcPriority.SendPulseOrder | kernel/nano/nano_pulse.c:87-181 | ... for a pulse, delivered or queued |
| IpcPriority.ReceiveOrder | kernel/ker_fastmsg.c:936-1121 | ... for receive: exactly if nothing left in the queue asks for more than the priority the receiver ends up with |
| IpcPriority.CurrentOrder | kernel/ker_message.c:60-73 | ... for the re-pairing call |
| IpcPriority.AdjustOrder | kernel/nano/nano_sched.c:1805-1817 | ... for a change of priority |
| IpcPriority.NotedStep | kernel/ker_fastmsg.c:832-880 | a waiting receiver has noted its channel, and a pulse never stands below its own priority |
| IpcRuns.RunsAgree | kernel/ker_fastmsg.c:188-1489 | state and queues agree in every state of every run from an idle system |
| IpcRuns.RunsPair | kernel/ker_fastmsg.c:188-1489 | clients and servers stay matched until the first reply that faults early |
| IpcRuns.RunsLink | kernel/nano/nano_sched.c:946-952 | ... in every state of every run, and no two threads name the same server |
| IpcRuns.EarlyReplyDangles | kernel/ker_fastmsg.c:1398-1413 | a run of a send, a receive and an early-faulting reply that ends with a client pointer to a ready thread |
| IpcRuns.RunsOrder | kernel/ker_fastmsg.c:188-1489 | a run is free of priority inversion exactly as long as each call meets its condition |
| IpcChannelOrder.PlainRunsOrder | kernel/ker_fastmsg.c:656-1121 | in every run in which a floating-priority channel sees ordinary sends, receives, replies, unblocks and pulses at their own priority, and the clients queued on it keep their priority, no server of the channel ever runs below an entry of its queue, whatever happens on other channels |
| IpcChannelOrder.PlainStep | kernel/ker_fastmsg.c:656-1121 | ... call by call |
| IpcChannelOrder.PlainReceiveAny | kernel/ker_fastmsg.c:934-1121 | an ordinary receive puts the channel in order even if it was not in order for the receiver before |
| IpcRuns.OnOneQueue | kernel/ker_fastmsg.c:408-1176 | no thread is on two queues |
| IpcRuns.CallsLive | kernel/ker_fastmsg.c:1386-1413 | in one call of anybody a send-blocked thread stays, is received on the same connection or is made ready, other blocked threads stay or are made ready, and only the caller blocks |
| IpcRuns.CallsRunForward | kernel/ker_fastmsg.c:408-1413 | over every stretch of every run in which a thread makes no call its state only goes forward: send-blocked, reply-blocked on the same connection, ready; once ready it stays ready |
| IpcRuns.CallsEnd | kernel/ker_fastmsg.c:408-1413 | between two states of a run in which a thread is blocked in different calls it has been ready |
| IpcRuns.HeadIsHighest | kernel/ker_fastmsg.c:934-966 | what a receive takes is of highest rank among what is left |
| IpcRuns.PlainReceiveSettles | kernel/ker_fastmsg.c:1098-1121 | receiving a message, or a pulse that was not moved ahead, never leaves an inversion, because the head of a sorted queue is taken |
| IpcRuns.ReceivesFirstGood | kernel/ker_fastmsg.c:1004-1121 | the receive hands over the first message that does not fault, pairs the two threads and passes the priority on |
| IpcRuns.FirstPulseInverts | kernel/nano/nano_pulse.c:21-84 | a run of three calls that ends with a server below a queued sender |
| IpcRuns.NestedSendInverts | kernel/ker_fastmsg.c:665-683 | a run of two sends that raises a server queued on a second channel above the server there |
| IpcAnswers.SendAnswers | kernel/ker_fastmsg.c:413-697 | a send that meets a waiting receiver leaves the sender reply-blocked on its connection and first on the reply queue, the receiver ready, working for it and at its priority if the channel floats; a fault of the sender changes nothing, one of the receiver readies the receiver only; without a receiver the sender is send-blocked and queued and exactly the lower servers of the channel are raised; nobody else moves |
| IpcAnswers.SenderTakesPlace | kernel/ker_fastmsg.c:656-659 | a queued sender stands behind exactly the entries of its own or a higher rank, the others where they were, if no server raised for it is itself queued |
| IpcAnswers.PulseAnswers | kernel/nano/nano_pulse.c:87-181 | a pulse readies the first receiver of either kind, at the pulse's priority if the channel floats; without one it is queued with its rank, or merged, and exactly the lower servers are raised; refused, it changes nothing |
| IpcAnswers.PulseTakesPlace | kernel/nano/nano_pulse.c:21-84 | a queued pulse stands behind exactly the entries of its own or a higher rank, if no server raised for it is itself queued |
| IpcAnswers.ReceiveAnyAnswers | kernel/ker_fastmsg.c:934-1175 | an ordinary receive readies the senders in front that fault and takes what comes first of the rest: a pulse and its priority, or a message whose sender is then reply-blocked and served by the caller at its priority; with a fault of its own it takes nothing; if nothing is left it waits or times out |
| IpcAnswers.PulseOnlyAnswers | kernel/ker_fastmsg.c:934-1175 | a pulse-only receive takes the first pulse of the queue, past messages, and waits or times out if there is none |
| IpcAnswers.ReceiveAnswers | kernel/ker_fastmsg.c:832-1177 | ... for the call as a whole; with a refused argument nothing but the noted channel changes |
| IpcAnswers.ReceiveBlocks | kernel/ker_fastmsg.c:1149-1175 | a receive with nothing to take leaves the caller receive-blocked on the channel and on its receive queue, marked exactly if it takes pulses only, and without a client; with a timeout the caller is ready and the receive queues are as before |
| IpcAnswers.JoinStands | kernel/ker_fastmsg.c:1161-1175 | an ordinary receiver goes to the front of the receive queue, a pulse-only one behind all ordinary ones and before all pulse-only ones |
| IpcAnswers.FirstPulseIsFirst | kernel/ker_fastmsg.c:983-988 | the scan returns a pulse with no pulse before it, and none exactly if there is none |
| IpcAnswers.FirstPulseIsHighest | kernel/ker_fastmsg.c:983-988 | ... so no pulse of the queue ranks above it |
| IpcAnswers.ReplyAnswers | kernel/ker_fastmsg.c:1180-1414 | a reply to a reply-blocked thread makes it ready and takes it off the reply queue, where the others keep their order; its server loses it unless the reply faults early; a reply to anybody else changes nothing |
| IpcAnswers.UnblockAnswers | kernel/nano/nano_sched.c:833-1105 | a thread forced out is ready and off the one queue it was on, where the others keep their order; nobody else moves; a reply-blocked one is no longer served |
| IpcAnswers.CurrentAnswers | kernel/ker_message.c:30-75 | the caller works for the reply-blocked client, at its priority if the channel floats, or for nobody; only the links of those two and of their former partners change |
| IpcAnswers.AdjustAnswers | kernel/nano/nano_sched.c:1805-1817 | a change of priority moves a send-blocked thread to its new place in its queue and changes nothing else |
| IpcKernel.Kernel.MsgSend | kernel/ker_fastmsg.c:408-702 | the in-place send refines the model's, and answers as stated for SendAnswers: delivered, faulted on either side, queued or refused |
| IpcKernel.Kernel.RaiseServers | kernel/ker_fastmsg.c:665-683 | the loop over the server's threads refines the boost, although raising one thread may reorder a queue that another one stands in |
| IpcKernel.Kernel.AdjustPriority | kernel/nano/nano_sched.c:1805-1817 | a queued thread is taken out, changed and put back behind exactly the entries of its new or a higher priority |
| IpcKernel.Kernel.MsgSendPulse | kernel/ker_fastmsg.c:704-830 | the in-place pulse call refines the model's, and answers as stated for PulseAnswers: delivered, queued, merged or refused |
| IpcKernel.Kernel.BlockReceiver | kernel/ker_fastmsg.c:1161-1175 | the loop that finds a receiver's place: the front for an ordinary one, behind the ordinary ones for a pulse-only one |
| IpcKernel.Kernel.FindPulse | kernel/ker_fastmsg.c:983-988 | the scan of a pulse-only receive finds the first pulse, or none exactly if there is none |
| IpcKernel.Kernel.ReceiveLoop | kernel/ker_fastmsg.c:934-1121 | the retry loop ends, since every retry removes a sender; it makes the model's step and answers as stated for ReceiveAnyAnswers |
| IpcKernel.Kernel.MsgReceive | kernel/ker_fastmsg.c:832-1177 | the in-place receive refines the model's and answers as stated for ReceiveAnswers; with nothing to take the caller ends receive-blocked on the queue, or ready with a timeout |
| IpcKernel.Kernel.WaitOrTimeout | kernel/ker_fastmsg.c:1149-1175 | the caller stops working for its client and is receive-blocked at its place, or with a timeout stays ready with the queues as they were |
| IpcKernel.Kernel.MsgReply | kernel/ker_fastmsg.c:1180-1414 | afterwards states and queues agree, a client that was reply-blocked is ready and on no reply queue, and the matching survives exactly unless the fault is early and the client has a server |
| IpcKernel.Kernel.MsgCurrent | kernel/ker_message.c:23-75 | afterwards the caller and the reply-blocked client name each other, or the caller has no client; agreement and matching are kept |
| IpcKernel.Kernel.ForceReady | kernel/nano/nano_sched.c:833-1105 | afterwards the thread is ready and on no queue of any channel; agreement and matching are kept |
| Connect.NothingLeaks | kernel/nano/nano_connect.c:20-57 | every allocated connection is held by a descriptor, a blocked thread or a sharing connection, or waits at its server place |
| Connect.DropKeeps | kernel/nano/nano_connect.c:20-57 | giving up any reference keeps every link count equal to the number of holders, frees the connection with its last holder, passes the loss on to the connection it shares with, and leaves nothing pointing to what was freed |
| Connect.HoldKeeps | kernel/ker_connect.c:104-126 | a shared attach keeps links and descriptor counts right |
| Connect.AttachNewKeeps | kernel/ker_connect.c:146-223 | so does a new connection with its own server place |
| Connect.AttachChildKeeps | kernel/ker_connect.c:163-171 | so does one that shares the place of another quality of service |
| Connect.BlockOnKeeps | kernel/ker_fastmsg.c:596-658 | one more holder for a thread keeps the counts right |
| Connect.EvictSpares | kernel/ker_connect.c:251-269 | the loop of detach unblocks exactly the threads that used the descriptor and were not left to their server, and keeps the descriptor, so the connection cannot go away under the loop |
| Connect.DetachKeeps | kernel/ker_connect.c:229-361 | detach keeps all counts |
| Connect.DetachTakes | kernel/ker_connect.c:251-345 | detach takes away that descriptor and those threads, and no other |
| Connect.ServerDetachKeeps | kernel/ker_connect.c:238-345 | a server place can be given up exactly when no client holds the connection |
| ChannelDestroy.DrainTakes | kernel/ker_channel.c:246-309 | of all descriptors and threads exactly the threads blocked on a connection to the channel give up their link |
| ChannelDestroy.SeverToCuts | kernel/ker_channel.c:327-352 | after the pass over a prefix of the server's vector no connection placed there points to the channel |
| ChannelDestroy.CutKeeps | kernel/ker_channel.c:340-349 | clearing the channel along the list of sharing connections keeps them consistent with each other |
| ChannelDestroy.DestroyCuts | kernel/ker_channel.c:246-380 | afterwards no connection points to the channel, no thread holds a link of a connection to it, every client descriptor still stands, and all counts are right |
| ChannelDestroy.DestroyRestarts | kernel/ker_channel.c:246-352 | interrupted after any thread or any server place and started over, the call ends in the same state |
| ChannelDestroy.DestroyResumes | kernel/ker_channel.c:246-352 | with any other calls in between that keep the counts and block nobody new on the channel, the call started over still completes |
| ConnectRuns.StepKeeps | kernel/ker_connect.c:21-361 | every attach, server detach and channel creation keeps the counts |
| ConnectRuns.ShareThenClose | kernel/ker_connect.c:104-345 | attach followed by detach of the same descriptor restores connections, holders, places and counts |
| ConnectAnswers.AttachReaches | kernel/ker_connect.c:86-226 | after each kind of attach the descriptor leads to a connection of its process, of the channel and quality of service asked for, with one link more; no other descriptor or thread is touched, and nobody but the connection shared with gains a link |
| ConnectAnswers.AttachPlaces | kernel/ker_connect.c:160-180 | a new connection takes exactly the place at the server that was handed out, the other two kinds take none |
| ConnectAnswers.BlockHolds | kernel/ker_fastmsg.c:596-659 | a thread that blocks holds the connection behind its descriptor, which has one link more; nobody else's link changes |
| ConnectAnswers.CloseEvicts | kernel/ker_connect.c:251-345 | closing a descriptor releases the thread that blocked through it, exactly unless the thread is left to its server |
| ConnectAnswers.DropAnswers | kernel/nano/nano_connect.c:20-57 | giving up a reference takes one link; the last one frees the connection exactly unless the channel is alive and wants to be told, when it stays without a client; the last link of a sharing connection takes one from the connection it shares with; nobody else's links change |
| ConnectAnswers.OpenThenClose | kernel/ker_connect.c:146-345 | opening a new connection and closing it again restores all tables at once, or, if the channel wants to be told, as soon as the server has given up the place |
| ConnectAnswers.BesideThenClose | kernel/ker_connect.c:160-345 | opening a connection beside another quality of service and closing it again restores all tables |
| CoupledRuns.RunsCount | kernel/ker_fastmsg.c:596-658 | in every state of every run of message calls, attaches, detaches and channel destructions a connection's link count is the number of descriptors open on it plus the threads send- or reply-blocked on it plus the connections that share its place, and each process is charged for its descriptors |
| CoupledRuns.RunsNeverDangle | kernel/nano/nano_sched.c:962-1005 | in every such state a send- or reply-blocked thread is on an allocated connection with a positive count, to a channel that exists, so the crash on a zero count is never reached; and whoever waits in a receive waits on a channel that exists |
| CoupledRuns.StepKeeps | kernel/ker_fastmsg.c:408-1489 | every call keeps "a thread holds a link of exactly the connection it is send- or reply-blocked on" together with the queues and the counts |
| Coupling.SendStays | kernel/ker_fastmsg.c:596-658 | ... a send, which takes a link exactly if it blocks |
| Coupling.CallStays | kernel/ker_fastmsg.c:1386-1482 | ... a receive, where a received sender keeps its link and a faulting one gives it up, and a reply, error or forced unblock, where the client gives it up |
| Coupling.CloseStays | kernel/ker_connect.c:229-361 | ... a detach that forces threads out of their sends |
| CoupledAnswers.SendThrough | kernel/ker_fastmsg.c:408-700 | where a send through a descriptor leaves its caller: send-blocked on the connection behind it, reply-blocked if a waiting receiver gets the message, ready if refused, faulted or cut off; the caller counts as blocked through the descriptor exactly if it is blocked |
| CoupledAnswers.CloseFrees | kernel/ker_connect.c:251-345 | closing a descriptor makes exactly the threads ready that are blocked through it and not left to their server, and takes that descriptor and no other |
| CoupledAnswers.SendThenClose | kernel/ker_connect.c:251-345 | a send through a descriptor does not outlive the descriptor |
| Teardown.DestroyCompletes | kernel/ker_channel.c:246-380 | interrupted after any iterations of its four loops and started over, a channel destruction completes: queues, links and counts agree, the channel is gone and no connection leads to it; every thread that was send-, receive- or reply-blocked on it is ready and every other thread is as before; its receive and reply queues are empty and only pulses are left on its send queue; every descriptor is on the connection it was on |
| Teardown.DestroyPairs | kernel/ker_channel.c:246-309 | the matching of clients and servers, and the link that early faults leave, survive |
| Teardown.ReleaseKeeps | kernel/nano/nano_sched.c:946-1005 | a released thread is ready and gives up its link and no other; queues, links and counts keep agreeing in the middle of the call |
| Teardown.DropTells | kernel/nano/nano_connect.c:24-56 | a disconnect pulse is sent exactly if the release takes the links of the connection with the server place, the thread's own or the one it shares with, to zero |
| Teardown.PulsesLeft | kernel/ker_channel.c:285-309 | an uninterrupted call leaves exactly one pulse for each orphaned connection: one to a channel that wants to be told, with every descriptor on it and on its sharers closed and a client still reply-blocked on one of them; the send queue is empty afterwards exactly if there is none |
| Teardown.RestartsAgree | kernel/ker_channel.c:246-352 | the call ends in the same state however it is interrupted and started over exactly if no connection to the channel is orphaned when it is made |
| CoupledRuns.DisconnectPulseStays | kernel/nano/nano_connect.c:24-38 | a run of six calls (create, open, send, receive, close the descriptor under the reply-blocked client, destroy) that ends with a pulse on the send queue |
| CoupledRuns.NewChannelEmpty | kernel/ker_channel.c:19-132 | a new channel starts with empty queues: nobody is blocked on a channel that does not exist, and a channel is not named after one on which something was left |
| TeardownKernel.Kernel.LastLink | kernel/nano/nano_connect.c:24-56 | the tests on the two link counts and the channel's flag decide whether a pulse is sent |
| TeardownKernel.Kernel.ReleaseThread | kernel/nano/nano_sched.c:946-1005 | the in-place release makes the model's step on both halves |
| TeardownKernel.Kernel.DrainSenders | kernel/ker_channel.c:249-275 | the loop over the send queue ends, though releasing a sender may queue another pulse, and leaves the queue empty |
| TeardownKernel.Kernel.DrainReceivers | kernel/ker_channel.c:277-283 | the loop over the receive queue leaves it empty |
| TeardownKernel.Kernel.DrainRepliers | kernel/ker_channel.c:285-309 | the loop over the reply queue leaves it empty and nobody blocked on the channel |
| TeardownKernel.Kernel.CutPlaces | kernel/ker_channel.c:327-352 | the loop over the server's places makes the rest of the model's call |
| TeardownKernel.Kernel.DestroyChannel | kernel/ker_channel.c:179-380 | the whole call in place: refused exactly if the channel does not exist; otherwise exactly the threads blocked on it are freed, no connection leads to it, and its send queue is empty exactly if no connection was orphaned |
| ConnectKernel.Kernel.ScanVector | kernel/ker_connect.c:89-130 | one vector is searched: a connection to share is found exactly if it holds one, and otherwise a master exactly if it holds a connection of the caller to the channel, own or shared with |
| ConnectKernel.Kernel.FindConnection | kernel/ker_connect.c:86-141 | ... in the descriptors and then in the side channels |
| ConnectKernel.Kernel.Attach | kernel/ker_connect.c:86-226 | the exact condition of each outcome: shared, opened beside a connection of another quality of service, opened with a place of its own, or failed with the tables as they were; each is the model's step, after it the descriptor leads to a connection of the caller to the channel of that quality of service, and the counts are right |
| ConnectKernel.Kernel.ShareConnection | kernel/ker_connect.c:104-126 | sharing, with the descriptor taken back when it is over the limit |
| ConnectKernel.Kernel.OpenConnection | kernel/ker_connect.c:146-223 | opening, with the descriptor taken back when it is over the limit or the server's vector is full |
| ConnectKernel.Kernel.OpenBesideConnection | kernel/ker_connect.c:146-171 | opening beside a connection of another quality of service |
| ConnectKernel.Kernel.DetachOwn | kernel/nano/nano_connect.c:24-47 | the connection is freed with its server place, or stays there without a client until the server notices |
| ConnectKernel.Kernel.DetachShared | kernel/nano/nano_connect.c:48-56 | a sharing connection leaves the list and lowers the count of the one it shares with |
| ConnectKernel.Kernel.Release | kernel/ker_connect.c:327-345 | giving up a reference in place refines the model's, whichever of the two connections is told first |
| ConnectKernel.Kernel.EvictThreads | kernel/ker_connect.c:251-269 | the loop over threads refines the model's, though unblocking may free other connections on the way |
| ConnectKernel.Kernel.DetachClient | kernel/ker_connect.c:229-361 | detach of a client descriptor refines the model's and is refused exactly if the descriptor is not in use |
| ConnectKernel.Kernel.DetachPlace | kernel/ker_connect.c:238-338 | detach of a server place takes the place and the connection exactly if no client holds it, and changes nothing otherwise |
| ConnectKernel.Kernel.CutList | kernel/ker_channel.c:340-349 | the loop over sharing connections clears exactly their channel pointers |
| ConnectKernel.Kernel.SeverPlace | kernel/ker_channel.c:329-351 | at one place the connection is freed if nobody holds it, and cut off from the channel with its sharers otherwise |
| Iov.AddressTestExact | kernel/ker_fastmsg.c:368-373 | the wrapping address test passes exactly if the part is empty or ends at or below the boundary |
| Iov.StepExact | kernel/ker_fastmsg.c:362-367 | the signed 32-bit total goes down exactly when it would leave the range |
| Iov.CheckParts | kernel/ker_fastmsg.c:352-382 | the list is accepted exactly if the sum of the lengths modulo 2^32 fits and every part passes; otherwise the first failing part decides the error |
| Iov.TotalIsLength | kernel/ker_fastmsg.c:352-382 | the accepted total is the length of the message exactly if no part reaches 2^32, and is then at most INT_MAX |
| Iov.ShortPartsExact | kernel/ker_fastmsg.c:352-382 | with parts below 2^32, a message is accepted exactly if its length fits and its parts lie below the boundary |
| Iov.HugePartCountsNothing | kernel/ker_fastmsg.c:362-367 | a part of 2^32 bytes adds nothing to the total |
| Iov.Gather | kernel/ker_fastmsg.c:383-400 | the copy fills the buffer with the parts in order, writes nothing behind them and nothing outside |
| Iov.GatheredIsMessage | kernel/ker_fastmsg.c:383-400 | with parts below 2^32 what is copied is the concatenation of the parts |
| Iov.MessageAt | kernel/ker_fastmsg.c:383-400 | every byte of every part stands in the message behind all bytes of the parts before it |
| Iov.GatheredAt | kernel/ker_fastmsg.c:383-400 | ... and in what is copied, of which a part gives its length modulo 2^32 |
| Iov.SendParts | kernel/ker_fastmsg.c:352-400 | accepted, rejected and short are decided as stated above; the buffer then holds the message or is untouched |
| Iov.WholeFits | kernel/ker_fastmsg.c:1300-1316 | a reply whose total fits also fits at full length exactly if no part reaches 2^32 |
| Iov.GatherReply | kernel/ker_fastmsg.c:1300-1316 | once the 32-bit total fits, the full-length copy stays inside the buffer exactly if no part reaches 2^32; what it writes is the concatenation of the parts |
| Dispatch.ByteLog2IsHighest | kernel/kexterns.c:23-40 | the table entry of a byte is its highest bit |
| Dispatch.SetInserts | kernel/kermacros.h:68-74 | setting a priority adds exactly it to the set of ready priorities, and every summary bit stays on exactly when the level below is not zero |
| Dispatch.ClearRemoves | kernel/kermacros.h:75-81 | clearing removes exactly it |
| Dispatch.HighestOfReady | kernel/kermacros.h:63-66 | three table look-ups give the maximum of the set, and 0 for the empty set |
| Dispatch.Bitmap.Set | kernel/kermacros.h:68-74 | the update of the three arrays is insertion into the ready set |
| Dispatch.Bitmap.Clear | kernel/kermacros.h:75-81 | the update of the three arrays, which stops at the first level that stays non-zero, is removal from the ready set |
| Dispatch.Bitmap.IsSet | kernel/kermacros.h:67 | the test is membership |
| Dispatch.Bitmap.HighestReady | kernel/kermacros.h:63-66 | the look-up on the arrays is the maximum |
| Semaphore.PostsAreGrants | kernel/ker_sync.c:886-952 | in every run initial count plus posts equals count plus grants, and nobody waits while the count is positive |
| Semaphore.StepKeeps | kernel/ker_sync.c:865-954 | every call keeps the wait queue in order and empty unless the count is zero |
| Semaphore.PostGrantsHighest | kernel/ker_sync.c:945-948 | a post readies exactly one waiter, of highest priority |
| Semaphore.LaterWaitsBehind | kernel/ker_sync.c:912-919 | a thread waits behind those of equal or higher priority that came before |
| Semaphore.WaitAnswers | kernel/ker_sync.c:886-921 | a wait takes one of a positive count; with none there the caller is queued behind exactly the waiters of its own or a higher priority, and a wait that may not block changes nothing |
| Semaphore.WaiterMoves | kernel/nano/nano_sched.c:1012-1105 | a waiter that gives up or changes its priority disturbs nobody else's order |
| Semaphore.Semaphore.WaitFor | kernel/ker_sync.c:865-921 | the caller is let through exactly if the count is positive, which then goes down by one; otherwise it is queued at its place, or sent back with the queue as it was |
| Semaphore.Semaphore.PostOne | kernel/ker_sync.c:924-954 | the first waiter is let through and nobody else moves; the count goes up exactly if nobody waits |
| Semaphore.Semaphore.Leave | kernel/nano/nano_sched.c:1012-1105 | a waiter forced out leaves the queue; the others keep their places and the count is unchanged |
| TraceMasks.CommandKeeps | kernel/ker_trace.c:224-295 | every class or event command keeps: a call goes to its traced version exactly if one of its bits is on, the exit switch is on exactly if some call or receive bit is, and an interrupt switch is never on without a bit |
| TraceMasks.RunsAgree | kernel/ker_trace.c:963-1800 | ... over every sequence of commands |
| TraceMasks.CommandSets | kernel/ker_trace.c:963-1800 | every command turns exactly the bits it names on, or off: all of them, those of the class, or those of the class at the event; every other bit stays |
| TraceMasks.SwitchesStayComplete | kernel/ker_trace.c:1115-1266 | the interrupt switches keep covering every bit exactly unless one class is deleted while bits of the other kind are on |
| TraceMasks.SwitchForgets | kernel/ker_trace.c:1166-1189 | two commands that leave a handler bit on and its switch off |
| TraceKernel.Tracer.CheckCallMasks | kernel/ker_trace.c:97-117 | the loop rebuilds table and exit switch from the masks |
| TraceKernel.Tracer.RecheckSwitches | kernel/ker_trace.c:1617-1756 | the scans turn a switch off exactly if no bit of its kind is left |
| TraceKernel.Tracer.ClassCommand | kernel/ker_trace.c:963-1266 | adding or deleting a class in loops over the mask arrays refines the model's command |
| TraceKernel.Tracer.EventCommand | kernel/ker_trace.c:1401-1800 | adding or deleting an event refines the model's command, out-of-range codes included |
| TraceKernel.Tracer.AllClassesCommand | kernel/ker_trace.c:224-295 | adding or deleting all classes refines the model's command |
| TracePool.SearchStopsInside | kernel/ker_trace.c:121-126 | while the count is below the size and covers the registered slots and the points that lost theirs, a slot is free, so the search without a bound stops inside the array |
| TracePool.SearchAlwaysStops | kernel/ker_trace.c:119-163 | ... after any sequence of registrations, null and repeated ones included, deletions and deaths; and no deletion takes the count below zero |
| TracePool.AddSlack | kernel/ker_trace.c:119-144 | any registration keeps the count that high |
| TracePool.DeleteSlack | kernel/ker_trace.c:146-163 | so does a deletion through a point whose slot has passed to another |
| TracePool.AddKeeps | kernel/ker_trace.c:119-144 | a registration keeps "the count is the number of slots in use and registration points have slots of their own" exactly if its handler is not null or it is refused |
| TracePool.AddTight | kernel/ker_trace.c:119-144 | ... and loses no slot exactly if the point was free or it is refused |
| TracePool.DeleteKeeps | kernel/ker_trace.c:146-163 | a deletion keeps the pool in order and loses no slot |
| TracePool.AddThenDelete | kernel/ker_trace.c:119-163 | a deletion undoes a registration |
| TracePool.AddRegisters | kernel/ker_trace.c:119-144 | an accepted registration puts handler, point and process into the first free slot, to which the point then points, and disturbs no other slot or point; a refused one does nothing |
| TracePool.DeleteEmpties | kernel/ker_trace.c:146-163 | a deletion empties exactly the slot its point points to |
| TracePool.DoubleAddWhole | kernel/ker_trace.c:169-173 | registering two handlers at once is all or nothing exactly unless one slot is left |
| TracePool.ReapToKeeps | kernel/nano/nano_trace.c:382-403 | after a process has died the pool is in order and holds none of its handlers |
| TracePool.ReapTakes | kernel/nano/nano_trace.c:382-403 | the sweep empties exactly the slots of the dead process and, if no slot was lost before, takes exactly their registration points |
| TracePool.Pool.Register | kernel/ker_trace.c:119-144 | for every caller, null handlers included, the unbounded search on the array ends; an accepted registration is in the slot its point points to and no other slot has changed |
| TracePool.Pool.Unregister | kernel/ker_trace.c:146-163 | deletion on the array empties that slot only; the count does not go below zero |
| TracePool.Pool.Sweep | kernel/nano/nano_trace.c:382-403 | the sweep, which stops early when nothing is in use, clears exactly the slots of the dead process |

## Left out

- Network connections and virtual threads, asynchronous and global channels, the optimised multiprocessor transfer flags, partition scheduling and sporadic scheduling.
- Mutex creation, destruction, revival after a process died, priority ceilings, recursive counts and sync events.
- Address probes, address-space switches, registers and instruction pointers: a fault is an outcome of a step, a preemption is a restart of the call.
- Signals, cancellation, thread creation and thread death, beyond a forced unblock of a blocked thread; in particular a thread that dies between being woken and taking the mutex.
- Lowering a thread's priority when it gives a mutex up, and the list of mutexes a thread holds.
- The contents of messages outside the short-message buffer; `ker_msg_readv`, `ker_msg_writev` and the other calls that move data of a message already received would only add easier members.
- The disconnect pulse that the loss of a last link causes is a pulse event of its own, except inside a channel destruction, where it is part of the call; the pool of pulses does not run out there.
- The pulses that tell clients of a destroyed channel (`connect_coid_disconnect`), which go to other channels.
- A forced unblock that only asks the server of a reply-blocked client to answer: the client stays blocked, which is no step of the model; a detach takes the clients left in this way as a parameter.
- The single-part and single-vector paths of the length check, which have no running total.
- Trace classes without derived state (user, control, process, thread, virtual thread, system masks), the wide and fast settings and the event filters.
- Pril.Add: works on a list of names; the links of the two-level list (one list per priority) are not modelled.
- InheritanceKernel.Kernel.AdjustPriority: repositions a thread in a mutex queue only; a send queue is repositioned by IpcKernel.Kernel.AdjustPriority, condvar and semaphore queues are not.
- Iov.GatherReply: stops in front of the part that would leave the buffer; what the copy overwrites behind the buffer is not modelled.
- Semaphore.Semaphore.PostOne: does not model the wrap-around of the 32-bit count.
- MutexProtocol.NoWakeupIsLost: speaks of states in which nobody has a step left to make; that every thread keeps making steps is not modelled.
- IpcKernel.Kernel.MsgSendPulse: merging a pulse with an equal queued one is a parameter; the count of merged occurrences is not modelled.
- ConnectKernel.Kernel.Attach: which free index a vector hands out is a parameter; growing a vector is not modelled.
- TraceMasks.CommandKeeps: the codes of the received-message and received-pulse events are parameters, since their values are not part of the repository.
