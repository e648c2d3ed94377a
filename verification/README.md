# A verified model of the CSP/ATS kernel and its two demonstration systems

The library under `contrib/cspats` gives ATS programs CSP-style channels, barriers and external
choice on top of pthreads. This project models its synchronisation kernel and the two systems
written with it, the disk server and the automated teller machine, in Dafny, and proves what they
are for. `dafny verify dfyconfig.toml` checks all of it.

## The three parts

**The kernel** (`contrib/cspats/LIB/cspats_lib.cpp`). Every lock, unlock, wait, signal, `sem_wait`
and `sem_post` is a boundary, and the statements between two boundaries are one step. Every thread
has a program counter; the wait set of a condition variable is the set of threads whose counter is
at the wait; a thread that was signalled must lock the mutex again before it goes on.

| files | what they hold |
|---|---|
| `Guards.dfy`, `Choice.dfy` | `One2OneChannel`, `Barrier2` and `Alternative` as a step system: one thread that selects, reads and synchronises, and any number of guards, each with its own partner thread |
| `ChoiceInvariant.dfy`, `ChoiceSteps.dfy` | the inductive invariant and its preservation by every step |
| `ChoiceTheorems.dfy`, `ChoiceMeetings.dfy`, `ChoicePriority.dfy` | safety, refinement to a synchronous channel, the pairing of the calls on a barrier, and the preference of `select` for earlier guards |
| `ChoiceProgress.dfy` | absence of mutex cycles, and progress |
| `SelectTurns.dfy`, `Schedule.dfy`, `KernelEffects.dfy` | one turn of a thread when the others may move before it, what a schedule of the others makes of a call, and what single steps change |
| `KernelObjects.dfy` | the classes with their C++ fields; a call is resumed at a boundary and runs to the next one |
| `Kernel.dfy` | the objects at work: `select` with its loops, `read` and `sync` as imperative methods that decide on the fields, while the partners run on the same fields under any schedule; a ghost run of the step system goes along, the fields always show where it is, and it is the run that the schedule says |
| `Many2One.dfy`, `Many2OneInvariant.dfy`, `Many2OneTheorems.dfy`, `Many2OneCondRead.dfy` | `Many2OneChannel` with any number of writers; when a `cond_read` is served |
| `Many2OneObject.dfy`, `Many2OneSchedule.dfy`, `Many2OneMethods.dfy` | the class with its C++ fields; what a schedule makes of a call; `read`, `cond_read` and `write` with its loop as imperative methods on the fields, under any schedule |
| `BarrierPairs.dfy` | `Barrier2::sync` called by any number of threads |

**The disk server** (`demos/DSS/DSSsim.csp`). The network is the one of processes and synchronised
events. `DiskQueue.dfy` has the two shift cells and the counter process with their hidden events, and
its refinement in both directions to a queue of two places. `DiskServer.dfy` has the closed network
with any number of clients, and `DiskService.dfy` its refinement to a service with one list of requests,
each of which the disk carries out once before its acknowledgement. `DiskProgram.dfy` has two points at
which the program `test/DSS.dats`, written from the same equations on top of the kernel, does less than
the network.

**The teller machine** (`demos/ATM/atm.csp`, `demos/ATM/bank.cc`). `Bank.dfy` has the bank's message
loop over a working and a committed copy of the table, `Atm.dfy` the parallel processes joined to
the bank, `AtmInvariant.dfy`, `AtmTheorems.dfy`, `AtmCards.dfy` and `AtmMoney.dfy` what holds on
every run. `Teller.dfy` describes the traces of the whole machine without its processes, by what was
entered and what happened last, and proves the two descriptions equal.

`Sums.dfy` adds up a function over a sequence, `Wrappers.dfy` has the optional value, and `Buffers.dfy`
the memory that writers hand over.

## What the code assumes, and the model with it

- pthread calls succeed and conditions have no spurious wake-ups (the comments at
  `contrib/cspats/LIB/cspats_lib.cpp:110`, `:148` and `:163`).
- A one-to-one channel has one reader and one writer, because its ends are linear
  (`contrib/cspats/SATS/cspats.sats:56-83`).
- The guards of one `select` are distinct and there is at least one. After `select` the caller reads
  or calls `sync_sem` on the guard it was given (`contrib/cspats/CATS/cspats.cats:236-268`).
- At most one of the two users of a barrier in a choice alternates.
- A signal wakes one waiting thread, any one of them when there are several. `m_state` has no initial
  value in the constructor, so the model starts from every value.
- Clients of the disk server follow `ds -> more -> ack`, over any list of blocks.
- The layout of `demos/ATM/atm.csp:96-123` is read so that `cancel` is offered at every prompt of a
  transaction. `choose` takes a menu number from 1 to 4, as only those have a `SPECIFICS` equation.
- Messages to the bank arrive in order; for a transfer the machine sends the source account as the
  account (`demos/ATM/atmprocs.cc:161-162`). The bank applies a request to the working copy before the
  PIN has been settled, and the machine rolls it back.

The total of the accounts is stated for every run. The equations about balances and cash are for proper
runs: known cards, accounts 1 and 2, amounts and loaded cash that are not negative, and deposits to
checking.

## Where the code does not do what its description suggests

- A deposit to savings adds its amount twice (`demos/ATM/bank.cc:238-241`); `Bank.ProcessConservesIff`
  says exactly when a request conserves money, and `AtmMoney.TotalOnEveryRun` when a run does.
- `cond_read` signals one waiting writer, which may be one that its guard refuses
  (`contrib/cspats/LIB/cspats_lib.cpp:333-337`); `CondReadServedIff`, `CondReadUnsignalledIff` and
  `ServedWhicheverWoken` in `Many2OneCondRead` say exactly when the calls in progress serve it, and
  `CondReadCanMiss` ends a run with reader and acceptable writer both asleep.
- The disk server accepts a request that its full queue cannot take and then never serves again
  (`demos/DSS/DSSsim.csp:77-78`); `DiskServer.CanFinishIff` says exactly when the work can be
  finished, `DeadlockReachableIff` which clients can prevent it, and `FillUp` gives the run.
- In `test/DSS.dats` the server reads its acknowledgements with `cond_read` from a channel to which
  several clients write (`test/DSS.dats:338-340`, `:477-496`), so it can stop for ever with two clients
  waiting there, although the network never deadlocks with fewer than four: `DiskProgram.AckCanStop` and
  `AckStaysStopped` give the failure for any two clients, and `AckServedIff` its exact condition.
- In `test/DSS.dats` one `Barrier2` joins three threads at the shifts (`test/DSS.dats:55-78`), so the two
  cells can release each other, which the network does not allow: `DiskProgram.CellsCanPair` gives the
  run, and `CellsAtShiftIff` says exactly when both cells are there.
- The machine waits forever when the bank does not know the card, because the bank sends no reply
  (`demos/ATM/bank.cc:269-270`); `AtmTheorems.DeadlockIffUnknownCard` says that nothing else stops
  it, and `AtmCards.UnknownCardStops` gives the run.
- The approval test looks at the balance named by `account` only, and not at all when that is neither
  1 nor 2 (`demos/ATM/bank.cc:150-159`); `Bank.ProcessSolventIff` says exactly when a request overdraws.

## Model

| member | source | states |
|---|---|---|
| `ChoiceInvariant.InitOk` | contrib/cspats/LIB/cspats_lib.h:48-51 | the fresh system satisfies the invariant whatever value the uninitialised m_state has |
| `ChoiceInvariant.PartnerKeeps` | contrib/cspats/LIB/cspats_lib.cpp:131-166 | every step of a thread inside write or sync, including its call of schedule, keeps the invariant of choice for any number of guards |
| `ChoiceInvariant.PartnerCallKeeps` | contrib/cspats/LIB/cspats_lib.cpp:131-133 | a new call of write or sync keeps the invariant |
| `ChoiceSteps.SelectKeeps` | contrib/cspats/LIB/cspats_lib.cpp:452-529 | every step of the thread inside select, enable, disable, read or sync_sem keeps the invariant |
| `ChoiceSteps.NextKeeps` | contrib/cspats/LIB/cspats_lib.cpp:452-551 | every step of every thread keeps the invariant |
| `ChoiceSteps.RunKeeps` | contrib/cspats/LIB/cspats_lib.cpp:452-551 | the invariant holds after every run, in any interleaving |
| `ChoiceTheorems.SelectReturnsReadyGuard` | contrib/cspats/LIB/cspats_lib.cpp:508-529 | select returns an index below m_len whose partner has arrived and sleeps inside its call; m_selector was assigned exactly once; every m_pAlt is NULL and every enable has been undone |
| `ChoiceTheorems.ChosenUseDoesNotWait` | contrib/cspats/LIB/cspats_lib.cpp:119-127 | the read or sync_sem after select takes the branch that does not wait, and a read copies the buffer of the writer asleep there |
| `ChoiceTheorems.SelectedValueIsRead` | contrib/cspats/LIB/cspats_lib.cpp:100-128 | over every later run, the next value read from a selected channel is the one that was pending when select returned |
| `ChoiceTheorems.PendingStays` | contrib/cspats/LIB/cspats_lib.cpp:131-152 | a writer or barrier partner that has arrived at a guard that was not selected stays pending, with its data, through every step of every thread until the selecting thread takes part |
| `ChoiceTheorems.PendingUntilUsed` | contrib/cspats/LIB/cspats_lib.cpp:131-188 | over every run in which the selecting thread takes no part at a guard, with any number of calls of select, a pending partner stays pending with its data, and an enable of the guard then returns true |
| `ChoiceTheorems.EnableSeesPending` | contrib/cspats/LIB/cspats_lib.cpp:173-188 | enable returns true if and only if a partner is pending at the guard; the branch of Barrier2::enable that calls schedule is not reached |
| `ChoiceTheorems.NoLostWakeUp` | contrib/cspats/LIB/cspats_lib.cpp:492-506 | while the selecting thread sleeps and no signal to it is due, m_state is eWaiting, every guard is registered, and no guard whose mutex is free has an arrived partner |
| `ChoiceTheorems.SchedulePicksOnce` | contrib/cspats/LIB/cspats_lib.cpp:531-551 | schedule is never entered in eInactive; it leaves m_state eReady with one selection made in all, the first one, of an enabled guard; its signal finds the selecting thread asleep and wakes it |
| `ChoiceTheorems.BoundStaysInList` | contrib/cspats/LIB/cspats_lib.cpp:457-490 | the decrements of bound never underflow and bound ends inside the list |
| `ChoiceTheorems.DisableCoversEnabled` | contrib/cspats/LIB/cspats_lib.cpp:508-524 | during the disabling loop the guards still enabled are exactly those at positions i to bound; each is disabled once and none is left |
| `ChoiceTheorems.PermitsConserved` | contrib/cspats/LIB/cspats_lib.cpp:554-670 | with one alternating side, the semaphore of a Barrier2 and the permits held always add up to 2, and no sem_wait ever blocks, in sync or in enable |
| `ChoiceTheorems.ChosenBarrierReleases` | contrib/cspats/LIB/cspats_lib.cpp:566-599 | when select returns a barrier its partner waits with m_parts = 1 and sync_sem takes the releasing branch |
| `ChoiceTheorems.SignalsMeetOneWaiter` | contrib/cspats/LIB/cspats_lib.cpp:100-166 | the two users of a channel or barrier are never in its wait set together, and every signal finds its one waiter |
| `ChoiceTheorems.ReadsAreWrites` | contrib/cspats/LIB/cspats_lib.cpp:100-166 | values read are the values written, in order, and a write returns only after its value was copied |
| `ChoiceTheorems.CopyFromLiveBuffer` | contrib/cspats/LIB/cspats_lib.cpp:100-166 | every copy through m_pBuff happens while the writer that owns the buffer sleeps inside write, and reads that writer's data |
| `ChoiceTheorems.ChannelRefinesRendezvous` | contrib/cspats/LIB/cspats_lib.cpp:100-166 | every step of the whole system is a step of a synchronous channel, or none, at each One2OneChannel, in either arrival order and with or without select |
| `ChoiceMeetings.BarrierMeetings` | contrib/cspats/LIB/cspats_lib.cpp:554-599 | on every run, with select or without it, no call of sync on a barrier returns before its counterpart has come: the k-th return of either side follows the k-th call of the other, each side has at most one call inside, and the returns of the two sides differ by at most one |
| `ChoicePriority.SelectPrefersEarlier` | contrib/cspats/LIB/cspats_lib.cpp:458-485 | when select is called while a partner waits at some position of its list, it returns that position or an earlier one, whatever the partners do meanwhile |
| `ChoiceProgress.WaitingLowersRank` | contrib/cspats/LIB/cspats_lib.cpp:461-524 | a thread that wants a mutex ranks above the thread that holds it, although select and write nest the two kinds of mutex in opposite orders |
| `ChoiceProgress.NoMutexCycle` | contrib/cspats/LIB/cspats_lib.cpp:461-551 | no cycle of threads of any length waits for mutexes in any reachable state |
| `ChoiceProgress.InternalLowersSteps` | contrib/cspats/LIB/cspats_lib.cpp:452-599 | each step inside a call lowers a non-negative measure over all threads |
| `ChoiceProgress.InternalRunsAreShort` | contrib/cspats/LIB/cspats_lib.cpp:452-599 | a run without new calls is no longer than that measure |
| `ChoiceProgress.StuckIsSettled` | contrib/cspats/LIB/cspats_lib.cpp:452-599 | when nothing inside a call can move, no mutex is held, the selecting thread waits only for partners that are outside their calls, and partners wait only where it does not ask |
| `ChoiceProgress.SettlingRun` | contrib/cspats/LIB/cspats_lib.cpp:452-599 | from every reachable state the calls in progress can be run to such a state |
| `SelectTurns.SelectAdvances` | contrib/cspats/LIB/cspats_lib.cpp:452-529 | what one turn of the selecting thread does, whatever the partners did since it last moved: its locals and what its locks protect are undisturbed |
| `SelectTurns.CanMoveIff` | contrib/cspats/LIB/cspats_lib.cpp:452-529 | between its calls' boundaries the selecting thread can move exactly when the one lock, permit or signal it waits for is there |
| `Schedule.TakenIsRun` | contrib/cspats/LIB/cspats_lib.cpp:131-166 | what it means that the partners take the steps of a schedule: every possible run of the partners is taken as it is listed |
| `Schedule.TakenRuns` | contrib/cspats/LIB/cspats_lib.cpp:131-166 | what is taken is a run of the step system, and a listed step is left out only if it was not possible when it came |
| `Schedule.AwaitedStopsFirst` | contrib/cspats/LIB/cspats_lib.cpp:452-529 | the wait for a step of the selecting thread ends at the first turn after which the step is possible, and if there is none, after all of them |
| `KernelObjects.Alternative.Schedule` | contrib/cspats/LIB/cspats_lib.cpp:531-551 | schedule from each of its boundaries to the next, on m_sync, m_cond, m_state and m_selector, goes where the step system goes, and runs exactly when the step system can |
| `KernelObjects.One2OneChannel.constructor` | contrib/cspats/LIB/cspats_lib.h:105-109 | a new channel shows the fresh guard |
| `KernelObjects.One2OneChannel.Write` | contrib/cspats/LIB/cspats_lib.cpp:131-148 | write up to its first boundary after the test of m_bEmpty, on the fields, follows the partner's step and returns its next boundary |
| `KernelObjects.One2OneChannel.FinishWrite` | contrib/cspats/LIB/cspats_lib.cpp:137-166 | the signal, the wait and the unlock of write on the fields, where the wake-up shows as leaving the wait set |
| `KernelObjects.One2OneChannel.Read` | contrib/cspats/LIB/cspats_lib.cpp:100-127 | read up to its first boundary after the test of m_bEmpty: it waits when the step system waits, and otherwise returns the value that the step system records as read, taken through m_pBuff |
| `KernelObjects.One2OneChannel.FinishRead` | contrib/cspats/LIB/cspats_lib.cpp:110-128 | the wait, the copy through m_pBuff, the signal and the unlock of read, with the value that the step system records |
| `KernelObjects.One2OneChannel.Enable` | contrib/cspats/LIB/cspats_lib.cpp:173-188 | enable on the fields, with its result |
| `KernelObjects.Barrier2.constructor` | contrib/cspats/LIB/cspats_lib.cpp:692-700 | a new barrier shows the fresh guard, with two permits |
| `KernelObjects.Barrier2.Sync` | contrib/cspats/LIB/cspats_lib.cpp:554-584 | sync and sync_sem up to the first boundary after the test of m_parts, for either user of the barrier |
| `KernelObjects.Barrier2.FinishSync` | contrib/cspats/LIB/cspats_lib.cpp:574-599 | the wait, the signal with m_parts -= 2, the sem_post and the unlock, for either user of the barrier |
| `KernelObjects.Barrier2.Enable` | contrib/cspats/LIB/cspats_lib.cpp:624-656 | enable on the fields, with its result, in the branches that are reached |
| `Kernel.Threads.constructor` | contrib/cspats/LIB/cspats_lib.h:48-51 | objects with their initial fields, in any number, show the initial state of the step system |
| `Kernel.Threads.Resume` | contrib/cspats/LIB/cspats_lib.cpp:131-166 | a partner inside write, sync or schedule runs on to its next boundary on the fields exactly when the step system lets it, and the fields then show the state after that step |
| `Kernel.Threads.Others` | contrib/cspats/LIB/cspats_lib.cpp:131-166 | in one turn of the schedule the partners take, on the fields, exactly the listed steps and calls that are possible when they come, in order |
| `Kernel.Threads.Turn` | contrib/cspats/LIB/cspats_lib.cpp:452-529 | the selecting thread waits on the fields: it goes on after the first turn of the partners that leaves its lock, permit or signal there, exactly when the step system lets it move, and it gives up only at the end of the schedule |
| `Kernel.Threads.EnableAt` | contrib/cspats/LIB/cspats_lib.cpp:469 | enable on the guard at a position, with sem_wait for a barrier, as a run of the step system: its result is the one that the step system carries to the unlock |
| `Kernel.Threads.DisableAt` | contrib/cspats/LIB/cspats_lib.cpp:510-523 | disable on the guard at a position, with sem_post for a barrier that was not selected, as a run of the step system |
| `Kernel.Threads.EnableAll` | contrib/cspats/LIB/cspats_lib.cpp:458-485 | the enabling loop on the fields, with the partners interleaved, is a run of the step system and stops at the position that bound holds |
| `Kernel.Threads.AwaitReady` | contrib/cspats/LIB/cspats_lib.cpp:492-506 | the waiting block on the fields is a run of the step system from the adjusted bound to the disabling loop |
| `Kernel.Threads.IsSelector` | contrib/cspats/LIB/cspats_lib.cpp:513 | comparing m_selector with the address of a guard object gives the answer that the step system gives by guard numbers |
| `Kernel.Threads.DisableAll` | contrib/cspats/LIB/cspats_lib.cpp:508-524 | the disabling loop on the fields: the position it finds by comparing addresses is the one that the step system selects |
| `Kernel.Threads.Select` | contrib/cspats/LIB/cspats_lib.cpp:452-529 | select on the fields, for every schedule of the partners, ends where the schedule leads: before each step of select the partners have taken, in order, every possible step of the turns up to the first one that lets select move. An index it returns is that of a guard whose partner has arrived and waits; it fails to return only when blocked at the end of the schedule, and when the partners cannot move then either, no partner has called any of its guards |
| `Kernel.Threads.MeetChosen` | contrib/cspats/CATS/cspats.cats:236-268 | the read or sync_sem after select ends where the schedule leads, returns under every schedule, and a read returns the value that was pending when select returned |
| `Kernel.Threads.Meet` | contrib/cspats/LIB/cspats_lib.cpp:100-128 | read and sync on the fields without select end where the schedule leads; if a read returns, what it copied is the value of the next write in order |
| `Many2OneInvariant.StepKeeps` | contrib/cspats/LIB/cspats_lib.cpp:291-386 | every step inside read, cond_read or write keeps the invariant, for any number of writers |
| `Many2OneInvariant.RunKeeps` | contrib/cspats/LIB/cspats_lib.cpp:291-386 | the invariant holds after every run |
| `Many2OneTheorems.ReadsFollowCommits` | contrib/cspats/LIB/cspats_lib.cpp:314-317 | each read copies the buffer of the one commit made for it; reads follow commit order; no commit is overwritten or taken twice |
| `Many2OneTheorems.CommitNeedsOpenReader` | contrib/cspats/LIB/cspats_lib.cpp:368-376 | a buffer is installed only between a reader's opening and closing, once, by a writer that has not committed in this call |
| `Many2OneTheorems.CondReadsRespectGuards` | contrib/cspats/LIB/cspats_lib.cpp:322-356 | every value that cond_read delivers satisfies its guard |
| `Many2OneTheorems.WriteCommitsOnce` | contrib/cspats/LIB/cspats_lib.cpp:358-386 | each call of write commits exactly once before it returns |
| `Many2OneTheorems.UlWriterCountsPending` | contrib/cspats/LIB/cspats_lib.cpp:361-383 | while m_sync is free m_ulWriter is the number of calls of write that have not committed |
| `Many2OneTheorems.ReaderSignalFindsReader` | contrib/cspats/LIB/cspats_lib.cpp:378-381 | the signal on m_cdReader always finds the reader asleep, because of the hand-off through m_mxReader |
| `Many2OneTheorems.NoLostWakeUp` | contrib/cspats/LIB/cspats_lib.cpp:299-306 | if a plain read is open and unserved and writers are counted, some writer inside write is outside the wait set of m_cond, or the reader is about to give the signal that finds one there |
| `Many2OneTheorems.LockOrder` | contrib/cspats/LIB/cspats_lib.cpp:305-312 | m_sync is always taken before m_mxReader, and a thread that holds m_mxReader can move |
| `Many2OneTheorems.InternalLowersSteps` | contrib/cspats/LIB/cspats_lib.cpp:291-386 | each step inside a call lowers a measure, the while loop of write included |
| `Many2OneTheorems.StuckIsSettled` | contrib/cspats/LIB/cspats_lib.cpp:291-386 | when nothing inside a call can move, no write is pending under a plain read and no read is half done |
| `Many2OneTheorems.SettlingRun` | contrib/cspats/LIB/cspats_lib.cpp:291-386 | the calls in progress can always be run until nothing moves |
| `Many2OneCondRead.UnservedServedIff` | contrib/cspats/LIB/cspats_lib.cpp:322-386 | from any point after its opening and its signal, an unserved cond_read is served, once the calls in progress have run out, if and only if its guard accepts a writer that has not made its test yet |
| `Many2OneCondRead.CondReadServedIff` | contrib/cspats/LIB/cspats_lib.cpp:333-337 | a cond_read that signals is served by the calls in progress if and only if its guard accepts the writer that the signal woke, or one already on its way to its test; otherwise the reader and the other sleeping writers still sleep |
| `Many2OneCondRead.CondReadUnsignalledIff` | contrib/cspats/LIB/cspats_lib.cpp:328-337 | a cond_read that finds m_ulWriter = 0 is served by the calls in progress if and only if its guard accepts a writer that has not locked m_sync yet |
| `Many2OneCondRead.ServedWhicheverWoken` | contrib/cspats/LIB/cspats_lib.cpp:333-337 | it is served whichever writer the signal wakes if and only if the guard accepts a writer on its way, or all of the sleeping writers and there is one |
| `Many2OneCondRead.CondReadCanMiss` | contrib/cspats/LIB/cspats_lib.cpp:333-337 | for every guard, and every two values of which it refuses one and accepts the other: a reachable state in which nothing can move, the reader sleeps, and the writer of the accepted value sleeps inside write |
| `Many2OneMethods.WriterAdvances` | contrib/cspats/LIB/cspats_lib.cpp:358-386 | what one turn of a writer does, whatever the others did since it last moved |
| `Many2OneMethods.ReaderAdvances` | contrib/cspats/LIB/cspats_lib.cpp:291-320 | what one turn of the reader does, whatever the writers did since it last moved |
| `Many2OneSchedule.TakenIsRun` | contrib/cspats/LIB/cspats_lib.cpp:291-386 | every possible run of the other threads is taken as a schedule lists it |
| `Many2OneSchedule.TakenRuns` | contrib/cspats/LIB/cspats_lib.cpp:291-386 | what is taken is a run, and a listed step is left out only if it was not possible when it came |
| `Many2OneSchedule.MovedStopsFirst` | contrib/cspats/LIB/cspats_lib.cpp:291-386 | a thread takes its next step after the first turn of the others that makes the step possible |
| `Many2OneMethods.Threads.OthersThanWriter` | contrib/cspats/LIB/cspats_lib.cpp:291-386 | in one turn the reader and the other writers take, on the fields, exactly the listed steps and calls that are possible when they come, in order |
| `Many2OneMethods.Threads.OthersThanReader` | contrib/cspats/LIB/cspats_lib.cpp:358-386 | the same for the writers, while the reader is in its call |
| `Many2OneMethods.Threads.constructor` | contrib/cspats/LIB/cspats_lib.h:154-158 | the initial fields, with any number of writers, show the initial state of the step system |
| `Many2OneMethods.Threads.Commit` | contrib/cspats/LIB/cspats_lib.cpp:360-376 | write with its while loop on the fields, for every schedule of the other threads: when it leaves the loop its buffer has been committed once, after everything committed before the call |
| `Many2OneMethods.Threads.Write` | contrib/cspats/LIB/cspats_lib.cpp:358-386 | write on the fields, for every schedule, ends where the schedule leads, with the listed steps of the reader and the other writers taken in order as far as they are possible: when it returns, its buffer was installed once, after everything committed before the call, for a read whose guard accepts it; it fails to return only when blocked at the end of the schedule, and when nobody can move then, no plain read is waiting |
| `Many2OneMethods.Threads.Read` | contrib/cspats/LIB/cspats_lib.cpp:291-356 | read and cond_read on the fields, for every schedule, end where the schedule leads: what is copied is exactly the next commit, it satisfies the guard, and every commit has been read; a plain read that is blocked when nobody can move waits because no write is in progress |
| `Many2OneObject.Many2OneChannel.constructor` | contrib/cspats/LIB/cspats_lib.h:154-158 | a new channel shows the initial state |
| `Many2OneObject.Many2OneChannel.Write` | contrib/cspats/LIB/cspats_lib.cpp:360-376 | write up to its commit on the fields: the lock, ++m_ulWriter, the loop condition and the wait or the commit |
| `Many2OneObject.Many2OneChannel.FinishWrite` | contrib/cspats/LIB/cspats_lib.cpp:378-386 | the hand-off through m_mxReader and --m_ulWriter on the fields |
| `Many2OneObject.Many2OneChannel.Read` | contrib/cspats/LIB/cspats_lib.cpp:293-309 | read and cond_read up to the wait on the fields; the signal takes one writer out of the wait set of m_cond |
| `Many2OneObject.Many2OneChannel.FinishRead` | contrib/cspats/LIB/cspats_lib.cpp:309-319 | read and cond_read after the wait: the value returned, taken through m_pBuff, is the one that the step system records |
| `BarrierPairs.RunKeeps` | contrib/cspats/LIB/cspats_lib.cpp:554-599 | the invariant of Barrier2::sync holds after every run of any number of threads |
| `BarrierPairs.ReleasedInPairs` | contrib/cspats/LIB/cspats_lib.cpp:554-599 | calls are released in pairs of different threads; each thread has been released once per pair it belongs to, and k pairs have released 2k calls |
| `BarrierPairs.PairsOverlap` | contrib/cspats/LIB/cspats_lib.cpp:574-594 | the two calls of a pair overlap: when one releases, the other is the only thread in the wait set |
| `BarrierPairs.FreeBarrier` | contrib/cspats/LIB/cspats_lib.cpp:566-599 | while m_sync is free m_parts is 0 or 1 and is the size of the wait set; at most two threads hold permits |
| `BarrierPairs.StepLowersRank` | contrib/cspats/LIB/cspats_lib.cpp:554-599 | each step inside sync lowers a measure |
| `BarrierPairs.StuckLeavesAtMostOne` | contrib/cspats/LIB/cspats_lib.cpp:554-599 | when nothing can move at most one thread is inside sync |
| `DiskQueue.StepKeeps` | demos/DSS/DSSsim.csp:29-43 | at DQ(i) the cells hold exactly i items that have completed i shifts in all, with the matching counts at every other control point |
| `DiskQueue.StepRefines` | demos/DSS/DSSsim.csp:29-43 | a hidden event leaves the abstract queue as it is, and a visible event is a step of it |
| `DiskQueue.HiddenLowersPlaces` | demos/DSS/DSSsim.csp:31-33 | there are at most ten hidden events in a row: no livelock |
| `DiskQueue.StableOffers` | demos/DSS/DSSsim.csp:35-43 | when no hidden event is possible DQueue offers exactly what the abstract queue offers: no internal deadlock |
| `DiskQueue.RunRefines` | demos/DSS/DSSsim.csp:29-43 | every trace of DQueue is a trace of the two-place queue |
| `DiskQueue.RunCompletes` | demos/DSS/DSSsim.csp:29-43 | every trace of the two-place queue is a trace of DQueue |
| `DiskQueue.Settle` | demos/DSS/DSSsim.csp:31-33 | hidden events lead from every state to one without hidden events, with the same contents |
| `DiskQueue.FifoOrder` | demos/DSS/DSSsim.csp:19-27 | on the abstract queue, contents and inputs equal outputs and contents left, in order, and at most two items are stored |
| `DiskQueue.QueueIsFifo` | demos/DSS/DSSsim.csp:29-43 | next delivers the oldest undelivered item, empty comes only when nothing is stored, enq only when fewer than two items are |
| `DiskServer.StepKeepsInv` | demos/DSS/DSSsim.csp:53-92 | every event of the network keeps its invariant, for any number of clients |
| `DiskServer.StepMovesPipeline` | demos/DSS/DSSsim.csp:53-90 | ds appends its request to the requests in progress, ack removes the oldest, every other event keeps their order |
| `DiskServer.ServedInOrder` | demos/DSS/DSSsim.csp:53-92 | accepted requests are, in order, the acknowledged ones, then the one in service, then those in and on the way to the queue; each is acknowledged once with its client's number |
| `DiskService.StepRefines` | demos/DSS/DSSsim.csp:53-92 | every event of the network other than those of the queue is one event of a plain service (a list of requests of which the oldest goes through dci, dio, dint, dco and ack), and the queue's events show nothing |
| `DiskService.RunRefines` | demos/DSS/DSSsim.csp:29-100 | every trace of the network, without the queue's events, is a trace of that service |
| `DiskService.DiskServesEachOnce` | demos/DSS/DSSsim.csp:53-63 | on every run the disk is started with the blocks of the ds events, in order and once each, each has its interrupt before the next start, and each request is acknowledged after its own interrupt; the counts of ack, dint and dio differ by exactly what the stage of the oldest request says |
| `DiskServer.OverfullShape` | demos/DSS/DSSsim.csp:77-78 | four requests are in progress exactly when the scheduler wants to enqueue into a full queue |
| `DiskServer.PipelineFitsClients` | demos/DSS/DSSsim.csp:88-100 | no client has two requests in progress, so there are no more requests in progress than clients |
| `DiskServer.StuckIsFinishedOrOverfull` | demos/DSS/DSSsim.csp:73-100 | a state without events is finished, with every process at its start, or has four requests in progress |
| `DiskServer.OverfullStays` | demos/DSS/DSSsim.csp:77-78 | once four requests are in progress nothing is acknowledged again |
| `DiskServer.CanFinishIff` | demos/DSS/DSSsim.csp:73-100 | for any number of clients, all work can still be finished if and only if fewer than four requests are in progress |
| `DiskServer.ThreeClientsNeverDeadlock` | demos/DSS/DSSsim.csp:73-100 | in the network of processes, with at most three clients the only states without events are the finished ones |
| `DiskServer.EventLowersRank` | demos/DSS/DSSsim.csp:29-100 | every event lowers one measure over all processes, so every run is finite |
| `DiskServer.MaximalRunServesAllIff` | demos/DSS/DSSsim.csp:73-100 | for any number of clients, a run that cannot go on has served every block of every client in the client's order, with all processes at their start, if and only if fewer than four requests are in progress |
| `DiskServer.MaximalRunServesAll` | demos/DSS/DSSsim.csp:73-100 | in the network of processes, every maximal run of at most three clients serves every block of every client in the client's order and ends with all processes at their start |
| `DiskServer.FillUp` | demos/DSS/DSSsim.csp:73-80 | any four clients with work can reach a state that never acknowledges again |
| `DiskServer.DeadlockReachableIff` | demos/DSS/DSSsim.csp:73-100 | such a state can be reached if and only if at least four clients have work |
| `DiskProgram.TwoClientsAtAck` | demos/DSS/DSSsim.csp:73-100 | any two clients with work can both wait for their acknowledgements while the server is about to acknowledge one of them |
| `DiskProgram.AckCanStop` | test/DSS.dats:338-340 | two clients asleep in their write to ack can leave the server asleep in its cond_read although it accepts one of them, with nothing able to move |
| `DiskProgram.AckStaysStopped` | test/DSS.dats:477-496 | from then on, whatever other clients do with their own numbers, the server and the client it waits for sleep on |
| `DiskProgram.AckServedIff` | test/DSS.dats:338-340 | the server's signal leads to the acknowledgement of client cl, whichever client it wakes, if and only if cl is on its way to the test of the loop or is the only client that sleeps |
| `DiskProgram.CellsAtShiftIff` | test/DSS.dats:36-47 | both cells wait at the shift at the same time if and only if a second item is being shifted in |
| `DiskProgram.AnyTwoCanPair` | contrib/cspats/LIB/cspats_lib.cpp:554-599 | any two of any number of threads that share a barrier can release each other while the others take no part |
| `DiskProgram.CellsCanPair` | test/DSS.dats:55-78 | so the two cells can release each other on the barrier that they share with the process that drives them |
| `Bank.Server.constructor` | demos/ATM/bank.cc:90-100 | both copies of the table start equal |
| `Bank.Server.HandleProcess` | demos/ATM/bank.cc:116-271 | the approval test, the updates and the reply of one request, statement by statement, compute the new working copy and the reply of the specification |
| `Bank.Server.Serve` | demos/ATM/bank.cc:102-294 | the message loop keeps the two copies and the replies equal to the specification over any messages |
| `Bank.AnswerAllOne` | demos/ATM/bank.cc:102-294 | a single message does to the two copies what its kind says, with at most one reply |
| `Bank.AnswerAllInParts` | demos/ATM/bank.cc:102-294 | the loop treats any list of messages in parts: the copies that one part leaves are those that the next begins with, and the replies come in order |
| `Bank.ReplyMeans` | demos/ATM/bank.cc:144-260 | the reply approves exactly the requests that are not a withdrawal or transfer of more than the balance of the account named, it tells whether the PIN is right, and it reports the balance of that account in the new working copy if and only if the request is not a non-zero deposit to savings, when it reports the balance with the deposit once |
| `Bank.RequestMeans` | demos/ATM/bank.cc:166-255 | an approved request changes each account by exactly what a withdrawal, transfer, deposit or inquiry means for it (a deposit to savings twice), a refused one changes nothing, and PINs, other cards and the committed copy stay |
| `Bank.ProcessConservesIff` | demos/ATM/bank.cc:166-255 | a request changes the total of the table by the amount it means to if and only if it is not a non-zero deposit to savings |
| `Bank.SavingsDepositCountsTwice` | demos/ATM/bank.cc:236-241 | a deposit of 5 to savings adds 10 |
| `Bank.ProcessSolventIff` | demos/ATM/bank.cc:150-159 | for every request: it overdraws an account if and only if the approval test looked at the wrong balance (account neither 1 nor 2, or not the one a transfer takes from) and the amount is above the right one, or the amount is negative and takes more than the receiving account holds |
| `Bank.SensibleStaysSolvent` | demos/ATM/bank.cc:150-159 | for accounts 1 and 2, amounts that are not negative, and transfers checked on their source account, no request overdraws |
| `Bank.UncheckedAccountOverdraws` | demos/ATM/bank.cc:150-183 | any account number but 1 and 2 is taken for savings and not checked: every withdrawal of more than the savings is approved and overdraws them |
| `AtmInvariant.NextKeeps` | demos/ATM/atm.csp:29-174 | every event keeps the invariant: SESSION is in TRANS exactly while TRANSACTION is away from its start; variables are set before they are got; the working copy differs from the committed one by the unresolved request only |
| `AtmInvariant.EventResolves` | demos/ATM/atm.csp:125-158 | which events open and which resolve a request |
| `AtmTheorems.DeadlockIffUnknownCard` | demos/ATM/atm.csp:171-174 | the machine with its bank can always go on, except exactly when it waits for an answer about a card that the bank does not have |
| `AtmCards.UnknownCardStops` | demos/ATM/bank.cc:269-270 | from every table, every card that it does not have can bring the machine to a state without events |
| `AtmCards.KnownCardsNeverStop` | demos/ATM/atm.csp:171-174 | on every run that reads only cards that the bank has, some event is always possible |
| `AtmTheorems.EveryTraceIsAccepted` | demos/ATM/atm.csp:125-165 | on every trace each banksend is resolved by exactly one commit or rollback before the next banksend, again, or end of session; commit needs the card's PIN after at most two invalidPIN; the third leads at once to rollback and holdingcard |
| `AtmTheorems.CommitIsAuthorised` | demos/ATM/atm.csp:132-158 | a commit happens with the card's own PIN set, an approved request, and makes exactly that request's change permanent |
| `AtmTheorems.RollbackRestores` | demos/ATM/atm.csp:135-156 | a rollback leaves both copies equal to what was committed |
| `AtmTheorems.DisplayShowsBalance` | demos/ATM/atm.csp:158 | on every run, display shows the committed balance of the account that the last inquiry asked for |
| `Teller.TracesAreLegal` | demos/ATM/atm.csp:55-174 | the traces of the machine with its bank are exactly the sequences in which each event follows, by a plain table, from the last two events and the last entry of each kind |
| `Teller.LogHoldsLast` | demos/ATM/atm.csp:93-123 | the entries that the table refers to are the last ones of their kind on the trace |
| `Teller.RequestIsAsEntered` | demos/ATM/atm.csp:93-125 | on every run, banksend carries what was entered: the menu entry chosen last, the card and PIN given last, and the account, or for a transfer the two accounts, and the amount given last, 0 for an inquiry |
| `Teller.DispensesWhatWasAsked` | demos/ATM/atm.csp:147-151 | on every run, dispense is for a withdrawal, after its commit, and gives the amount entered last |
| `Teller.DepositTakesEnvelope` | demos/ATM/atm.csp:154-156 | on every run, a deposit is committed directly after insertenv |
| `Teller.SessionEndsWithCard` | demos/ATM/atm.csp:70-140 | on every run, a session ends directly after ejectcard, or after holdingcard, which follows the rollback after the third invalidPIN |
| `AtmMoney.CommitMovesTotal` | demos/ATM/atm.csp:147-158 | on every run, a commit lowers the committed total by the cash it is about to dispense, or raises it by the deposit, by a deposit to savings twice |
| `AtmMoney.TotalOnEveryRun` | demos/ATM/atm.csp:93-165 | on every run, whatever is put in, the committed total is the initial one less dispensed cash, less a withdrawal committed and not yet dispensed, plus deposits, plus deposits to savings once more; so it is as it should be if and only if the deposits to savings add up to 0 |
| `AtmMoney.MoneyIsConserved` | demos/ATM/atm.csp:93-165 | over any number of sessions with proper inputs: no balance negative; machine cash plus cash dispensed is the cash loaded since on; committed total is the initial one less dispensed cash, less a withdrawal committed and not yet dispensed, plus deposits |
| `AtmMoney.MoneyAgreesBetweenSessions` | demos/ATM/atm.csp:57-64 | between sessions the two copies are equal and the equations hold without pending terms |

## Left out

- A second alternative on one barrier: the branch of `Barrier2::enable` that calls `schedule` with the alternative already locked is modelled as a blocked step and proved unreachable.
- `Many2OneChannel` as a guard of `select`: its `enable`, `disable` and call of `schedule`; a writer that arrived before `enable` is woken but does not call `schedule` again, so no progress holds there.
- The lifetime of a buffer passed to `Many2OneChannel::write`, which returns before the copy: commits are identified by their number and the value installed.
- Buffers hold one value each; lengths and bytes of `memcpy` are not modelled.
- Kernel.Threads.Select: a schedule is finite, so the call may still be blocked at its end; its contract says what blocks it then, and that calls do end is stated on runs of the step system by ChoiceProgress.
- Many2OneMethods.Threads.Read: the same holds for the schedule of this class.
- Many2OneMethods.Threads.Write: does not model the call of `schedule` for a registered alternative (`contrib/cspats/LIB/cspats_lib.cpp:363-366`), because the channel is modelled outside `select`, with `m_pAlt` always NULL.
- Many2OneMethods.Threads.Commit: the same call is left out.
- Many2OneObject.Many2OneChannel.Write: the same call is left out, and the class has no field `m_pAlt`.
- A signal is modelled as taking the one waiting thread out of the wait set; that there is one, and which, is proved.
- Error chains, logging, tracing, object creation and failure clean-up, reference counting, and the C and ATS wrappers.
- The rest of `test/DSS.dats` on top of the kernel: `DiskServer` and `DiskQueue` have the events of the processes, in which `ack` joins the server and the right client, and `shift` the counter process and one cell; where the program differs is in `DiskProgram`.
- The wrap-around of C integers in the bank and of `m_ulWriter`.
- SQL, sockets, user prompts and the other machine processes of `demos/ATM`; the variable `BAL`, which no process of the machine sets or gets; the processes OPERATOR, CLIENT and BANK of `atm.csp`.
- AtmMoney.MoneyIsConserved: does not include deposits to savings, because the code adds them twice; AtmMoney.TotalOnEveryRun has the total with them.
- The assertions of `atm.csp` about single processes, determinism and traces after hiding, other than deadlock freedom of ATM and the held card after three wrong PINs.
- The assembly of `demos/DSS/DSS.csp`, which is the same network with the disk left outside.
