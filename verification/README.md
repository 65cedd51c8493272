# Signal-safe locks and a SIGBUS catcher, modelled and proved in Dafny

The repository holds `signal_lock`, two mutexes that signal handlers may take (`FutexLock` over a futex
word, `PipeLock` over two atomics and a pipe), and `mmapcatch`, which registers memory maps with such a
lock and replaces faulting pages from a SIGBUS handler. This project models their protocols and proves
what their comments, their TLA+ specifications and their tests stand for.

`dafny verify dfyconfig.toml` checks everything.

## How it is modelled

**The two locks.** A thread is a stack of calls. A signal may push another call at any point: on a holder,
on a sleeping or blocked call, on a call that has unlocked and still owes a wake. `FutexMachine` and
`PipeMachine` give one step per atomic action of the source. A run is any sequence of enabled steps, for
any number of threads, any depth of handlers and any pipe capacity of at least one byte. The TLA+
specifications check finitely many processes, depth and one byte of capacity, with signals at chosen
places and never on a holder; the theorems here have no such limits. The protected item is a counter that
a critical section reads in one step and writes in another.

`AbstractLock` is what a user sees: one lock that is taken when free, released by its holder, and that
refuses a call exactly when a call beneath it on the same thread holds it. `FutexSafety` and `PipeSafety`
prove that every run is a history of this lock and that no reachable state is deadlocked.
`FutexTermination` and `PipeTermination` bound the length of every run and show that a run that cannot go
on has returned from every call, without any fairness between threads.

**The code's own form.** The classes `FutexLock`, `PipeLock`, `SpinBarrier`, `CondvarBarrier`, `FakeFutex`,
`LoomPipe`, `Program`, `StaticRoot` and `Root` hold the source's fields, and their methods are its
functions and loops. The concurrent ones run against a schedule, an arbitrary and constant sequence of
steps, of which `now` have happened. Module `Schedules` says what `moments[k]`, the state after the first
`k` steps, is: the machine's step if it can happen, and no change otherwise. Each class keeps
`Valid()`: its fields are those of `moments[now]`. So a method cannot drop, repeat or invent a step, and
its contract says where along the moments it stops: that its call goes on at every moment until then,
that the call has returned, or that the schedule has ended with the call still going on. For `RawLock`,
`Lock`, `Wait`, `TryCall` and most others these are if-and-only-ifs; for the two locks `OneEnd` adds that
the same schedule from the same start leaves a call one possible answer, at one moment. Where the source
acts at one moment, the swap of an unlock, the wake, a byte read or written, `do_the_thing`, the contract
names that moment and what happens there. The `MomentsAreRuns` lemmas say that moments are ends of runs, so
that the theorems about runs hold of them.

**What can happen.** The theorems are about all runs, so each machine also has lemmas that its runs are
there: from any reachable state the run goes on with a call, with a signal anywhere and with each thing
that may go wrong, to exactly the state that is written out.

**The stand-ins.** `FutexObject` is the futex with an atomic compare-and-enqueue. `FutexLock` does to it
only what it permits, and takes every answer that it permits. `CondvarFutex`, the loom tests' futex over a
mutex and a condition variable, refines it although the word changes outside the mutex, and `CondvarPipe`,
their pipe, refines an atomic pipe of two bytes. `FutexOverCondvar` and `PipeOverCondvar` are the
compositions, each lock over its stand-in: every run simulates a run of the lock's own machine, so that
safety carries over, and deadlock freedom, a bound on every run and the return of every call are proved
again of the composition itself. `BarrierSpec` is what both reusable barriers promise round by round;
`SpinBarrier` and `CondvarBarrier` keep it with one bit of generation.

**Weak memory.** `FenceOrder` replays the argument written in `pipe.rs` on executions as section 31.4
[atomics.order] of ISO/IEC 14882:2020 (C++20) describes them, for any number of lockers and unlockers. It
makes precise a point that the comment leaves open: the unlocker's load may also read a value from after
the locker has deregistered, and then no wake is owed.

**mmapcatch.** `IntervalIndex` is the registry searched through one predecessor, `PageRepair` the
arithmetic of the fault handler on 64-bit words with `Bits` for the masks, `Mmapcatch` the operations in
place, `TryOnce` the fallible initialisation of the registry. `OptimisticHandler` is the deferred-signal
protocol of the example program, over the abstract lock that both locks refine.

## Assumptions

- Thread ids are nonzero, fit `FUTEX_TID_MASK` and differ between live threads. Guards are dropped by the
  frame that took them, on the same thread; they are never leaked.
- The kernel compares and enqueues in one action. A signal takes its sleeping thread off the futex queue
  before the handler runs; afterwards the wait is restarted or fails with EINTR. A weak
  compare-and-exchange may fail, a wait may end and a `read` or `write` may return EINTR for no reason,
  each counted against a finite supply where runs are bounded.
- Fewer than 2^32 calls of a PipeLock are alive at one time.
- Registered mappings are page-aligned and not empty, and do not reach past the end of the address space.

## Model

| member | source | states |
|---|---|---|
| AbstractLock.OneHolderAtATime | signal_lock/src/lib.rs:42-45 | In any history of the lock, acquisitions and releases alternate, and the protected counter is the number of releases. |
| AbstractLock.OutermostCallNeverRefused | tla/futex.tla:75-78 | Only a call on top of another call is ever refused, so `lock()` outside handlers never returns Recursive. |
| FutexSafety.ActorKept | signal_lock/src/futex.rs:140-213 | Every atomic action of the running call is an event that the abstract lock permits, and leaves the word, the counter and the call's local copy of the word consistent with it. |
| FutexSafety.RunRefines | signal_lock/src/futex.rs:140-213 | The same action leaves every other call, of other threads and suspended beneath, consistent. |
| FutexSafety.StepRefines | signal_lock/src/futex.rs:35-60 | So do new calls, signals, spurious failures, interrupted waits and wakes. |
| FutexSafety.RunsRefine | signal_lock/src/futex.rs:127-231 | Every run, for any threads, depth and supplies, seen from outside is a history of the abstract lock. |
| FutexSafety.SleeperHoldsNothing | signal_lock/src/futex.rs:157-162 | A thread whose running call sleeps holds the lock in none of its suspended calls. |
| FutexSafety.WakeKept | signal_lock/src/futex.rs:216-230 | Every step hands on the duty to wake: while anyone sleeps, WAITERS is set, or a thread that is not asleep owes a wake or is in the contended loop. |
| FutexSafety.InvKept | signal_lock/src/futex.rs:153-230 | Every step keeps both parts of the invariant. |
| FutexSafety.NoDeadlock | signal_lock/src/futex.rs:153-230 | In every reachable state with a sleeper some thread is inside a call and awake. |
| FutexSafety.HandlerSleepsOnOwedWake | signal_lock/src/futex.rs:217-226 | The situation the comment worries about is reachable: a handler asleep on top of the very call that owes another sleeper its wake. |
| FutexSafety.InterruptedHolderRefuses | signal_lock/src/futex.rs:157-162 | A call that interrupted the holder is refused within two of its own actions and never waits. |
| FutexSafety.NoLostUpdate | signal_lock/src/futex.rs:256-271 | After any run, with the lock free, a counter bumped by a plain read and a plain write equals the number of completed critical sections, handlers included. |
| FutexSafety.MutualExclusion | signal_lock/src/futex.rs:140-213 | At most one call, over all threads and all depths of each, is in its critical section, and the word names its thread. |
| FutexSafety.CallStarts | signal_lock/src/futex.rs:140-150 | In every reachable state a thread that is in no call may start one, while the supply lasts. |
| FutexSafety.SignalLands | signal_lock/src/futex.rs:215-230 | A signal may interrupt a call at any point of it, whoever holds the lock, and its handler starts a call on top; only a sleeper is moved, to start its wait again or to load the word. |
| FutexSafety.WeakExchangeMayFail | signal_lock/src/futex.rs:163-189 | Each of the three weak exchanges may fail on the value that it expects, and the call then looks at that value. |
| FutexSafety.WaitMayEnd | signal_lock/src/futex.rs:35-45 | A wait may end for no reason, asleep or before it sleeps, and is not retried: the call goes on to load the word. |
| FutexSafety.AnySleeperMayBeWoken | signal_lock/src/futex.rs:47-60 | A wake may take any of the sleepers, who will load the word. |
| FutexSafety.FreeLockIsTaken | signal_lock/src/futex.rs:140-150 | A call that finds the word 0 takes the lock with its first action, at any depth of handlers. |
| FutexSafety.HolderIsInterrupted | signal_lock/src/futex.rs:157-162 | After every run, a handler that interrupts a holder anywhere in its critical section is refused with its second action, and nothing else has changed. |
| FutexTermination.ActDescends | signal_lock/src/futex.rs:153-195 | An action that changes the word or ends the call uses up one of finitely many; any other moves the call strictly closer to one, also when its copy of the word is stale. |
| FutexTermination.MeasureDrops | signal_lock/src/futex.rs:153-195 | Every step lowers a natural-number measure of the whole state. |
| FutexTermination.RunsAreFinite | tla/futex.tla:15-19 | A run with c calls and signals and s spurious events has at most 5(5c+s)^2 steps. |
| FutexTermination.Progress | signal_lock/src/futex.rs:153-230 | While any call is unfinished, some thread can go on with neither a new call nor a spurious event. |
| FutexTermination.StoppedRunsAreComplete | tla/futex.tla:15-19 | A run that cannot go on has returned from every call, the word is 0, and the counter counts every critical section. |
| FutexWord.BitTests | signal_lock/src/futex.rs:160-179 | The masks of the code take the word modulo 2^30, test bit 31 and set bit 31. |
| FutexWord.TestsOnPackedWords | signal_lock/src/futex.rs:106-213 | Each test on the packed word holds exactly when its question about (holder, waiters) does. |
| FutexWord.SettingTheBit | signal_lock/src/futex.rs:176-184 | Or-ing WAITERS into a packed word keeps the holder. |
| FutexWord.PackInjective | signal_lock/src/futex.rs:177-179 | A compare-and-exchange or futex compare on packed words compares holder and flag. |
| FutexCode.MomentsAreRuns | signal_lock/src/futex.rs:127-231 | Every moment of a schedule is the end of a run of the machine and of its history of the abstract lock. |
| FutexCode.SleepsOnTheWord | signal_lock/src/futex.rs:35-45 | A thread falls asleep only at a moment at which the word has the value it waits on. |
| FutexCode.OneEnd | signal_lock/src/futex.rs:140-195 | A call of `raw_lock` has at most one end, at one moment: the answer of the lock is determined by the first state and the schedule. |
| FutexCode.RunsAreMoments | signal_lock/src/futex.rs:127-231 | Conversely, a run taken as a schedule has its own states as moments, so that what can happen in a run can happen to the code. |
| FutexCode.HandlerOnHolderIsRefused | signal_lock/src/futex.rs:157-162 | Along any run that a signal on a holder and two turns extend, the handler's call of `raw_lock` ends with Recursive; with OneEnd that is the only answer. |
| FutexCode.FutexLock.RawLock | signal_lock/src/futex.rs:140-150 | Locked, if and only if the call went on until now and its last step took the lock; Recursive, if and only if the call has just returned with a refusal; otherwise the schedule has ended with the call not yet in its critical section. Recursive only if, and Locked only if not, a suspended call of this thread held the lock from the start. |
| FutexCode.FutexLock.RawLockContended | signal_lock/src/futex.rs:153-195 | The loop over the packed word, with the same three ends. |
| FutexCode.FutexLock.TakeWord | signal_lock/src/futex.rs:163-172 | The exchange from 0 is the last step: it stores the desired word and makes this call the holder, or fails on the word that is there, which is 0 only if the failure is spurious. |
| FutexCode.FutexLock.FlagWord | signal_lock/src/futex.rs:176-189 | The exchange is the last step: it stores the seen word with WAITERS set, or fails on the word that is there, which is the seen one only if the failure is spurious. |
| FutexCode.FutexLock.FutexWait | signal_lock/src/futex.rs:35-45 | The call goes on until, after a wait that it started on the expected word, it is awake; a handler may make it start again. |
| FutexCode.FutexLock.WaitAndReload | signal_lock/src/futex.rs:192-193 | The last step loads the word that the loop goes on with. |
| FutexCode.FutexLock.FlagAndWait | signal_lock/src/futex.rs:176-193 | Against another holder: unless the exchange fails, the call waits, from a named moment on, for the seen word with WAITERS set, having set it at an earlier moment of this pass unless it was; it comes back with the word as it then is, loaded in the last step. |
| FutexCode.FutexLock.Increment | signal_lock/src/futex.rs:256-271 | The item is written one higher than it was at the start, and neither it nor the lock changes otherwise, whatever runs in between. |
| FutexCode.FutexLock.RawUnlock | signal_lock/src/futex.rs:198-213 | Returned if and only if the call has returned: at one moment the swap released the lock, counted the critical section and left 0; the holder check and the debug assertion pass; and the last step is a futex wake exactly if the swapped word had WAITERS set, otherwise the swap. |
| FutexCode.FutexLock.RawUnlockWake | signal_lock/src/futex.rs:216-230 | The last step is the owed wake, however many handlers ran and slept first: it takes a sleeper off the queue unless there is none. |
| PipeSafety.StepRefines | signal_lock/src/pipe.rs:187-309 | Every step is one event that the abstract lock permits and keeps every call consistent with it. |
| PipeSafety.WaitersKept | signal_lock/src/pipe.rs:213-239 | `waiters`, wrapping 32-bit arithmetic included, always is the number of calls, suspended ones too, between their fetch_add and fetch_sub. |
| PipeSafety.BytesKept | signal_lock/src/pipe.rs:220-309 | Every step keeps: if a call is committed to `read`, there is a byte, or the lock is held, or a call that will write or retry has no reader above it in its own stack. |
| PipeSafety.InvKept | signal_lock/src/pipe.rs:187-309 | Every step keeps the whole invariant. |
| PipeSafety.RunsRefine | signal_lock/src/pipe.rs:187-309 | Every run, for any threads, depth, capacity of at least 1 and supplies, is a history of the abstract lock. |
| PipeSafety.UnblockedThread | signal_lock/src/pipe.rs:246-309 | While any call is unfinished, some thread inside a call can take its next action. |
| PipeSafety.NoDeadlock | signal_lock/src/pipe.rs:204-309 | No reachable state has every unfinished thread blocked in `read` on an empty pipe, although EAGAIN on a full pipe passes for success and a byte may go to a call that then loses the race. |
| PipeSafety.InterruptedHolderRefuses | signal_lock/src/pipe.rs:209-211 | A call that interrupted the holder is refused within two of its own actions, changing nothing. |
| PipeSafety.LoopNeverRefuses | signal_lock/src/pipe.rs:238-241 | Without leaked guards the second Recursive exit, inside the loop, is never reached. |
| PipeSafety.ZeroWaitersMeansNoReader | signal_lock/src/pipe.rs:286-291 | When `waiters` is 0 no call anywhere is committed to `read`. |
| PipeSafety.NoLostUpdate | signal_lock/src/pipe.rs:187-292 | As for FutexLock: the counter equals the number of completed critical sections. |
| PipeSafety.MutualExclusion | signal_lock/src/pipe.rs:187-292 | At most one call, over all threads and depths, is between taking and releasing the lock, and `holder_tid` names its thread. |
| PipeSafety.LiveIsBounded | signal_lock/src/pipe.rs:213-239 | No more calls are alive than have been made: with fewer than 2^32 calls in all, the bound on live calls never stands in the way. |
| PipeSafety.WaitersWrap | signal_lock/src/pipe.rs:213-239 | `waiters` is 32 bits wide and wraps at both ends. |
| PipeSafety.CallStarts | signal_lock/src/pipe.rs:187-201 | In every reachable state a thread that is in no call may start one. |
| PipeSafety.SignalLands | signal_lock/src/pipe.rs:187-309 | A signal may interrupt a call at any point of it, blocked in `read` or holding the lock, and its handler starts a call on top. |
| PipeSafety.WeakExchangeMayFail | signal_lock/src/pipe.rs:187-236 | Both weak exchanges may fail on 0: the first leads to the contended path, the one in the loop back to itself. |
| PipeSafety.PipeCallMayBeInterrupted | signal_lock/src/pipe.rs:246-306 | `read` and `write` may return EINTR: the one leads back to the exchange without a byte, blocked or not, the other is repeated. |
| PipeSafety.FreeLockIsTaken | signal_lock/src/pipe.rs:187-201 | A call that finds `holder_tid` 0 takes the lock with its first action, at any depth of handlers. |
| PipeSafety.HolderIsInterrupted | signal_lock/src/pipe.rs:209-211 | After every run, a handler that interrupts a holder, from the exchange that took the lock to the swap that frees it, is refused with its second action, and nothing else has changed. |
| PipeTermination.ActDescends | signal_lock/src/pipe.rs:220-309 | Every action lowers the cost of the call plus three per byte in the pipe: another pass of the loop is paid for by a byte. |
| PipeTermination.MeasureDrops | signal_lock/src/pipe.rs:220-309 | Every step lowers a natural-number measure of the whole state. |
| PipeTermination.RunsAreFinite | tla/pipe.tla:15-19 | A run with c calls and signals and s spurious events has at most 14c+3s steps. |
| PipeTermination.StoppedRunsAreComplete | tla/pipe.tla:15-19 | A run that cannot go on has returned from every call, with the lock free, `waiters` 0 and every critical section counted. |
| PipeCode.MomentsAreRuns | signal_lock/src/pipe.rs:187-309 | Every moment of a schedule is the end of a run of the machine and of its history of the abstract lock. |
| PipeCode.OneEnd | signal_lock/src/pipe.rs:187-261 | A call of `lock` has at most one end, at one moment: the answer of the lock is determined by the first state and the schedule. |
| PipeCode.RunsAreMoments | signal_lock/src/pipe.rs:187-309 | Conversely, a run taken as a schedule has its own states as moments. |
| PipeCode.HandlerOnHolderIsRefused | signal_lock/src/pipe.rs:209-211 | Along any run that a signal on a holder and two turns extend, the handler's call of `lock` ends with Recursive; with OneEnd that is the only answer. |
| PipeCode.PipeLock.Lock | signal_lock/src/pipe.rs:187-201 | Locked, if and only if the call went on until now and is about to use the lock, the guard being contended exactly if the loop took it; Recursive, if and only if the call has just returned with a refusal; otherwise the schedule has ended with the call not yet in its critical section. Recursive only if, and Locked only if not, a suspended call of this thread held the lock from the start. |
| PipeCode.PipeLock.LockContended | signal_lock/src/pipe.rs:204-261 | The contended path, with the same three ends. |
| PipeCode.PipeLock.TakeHolder | signal_lock/src/pipe.rs:189-236 | The exchange from 0 is the last step: it stores this tid and makes this call the holder, or fails on the tid that is there, which is 0 only if the failure is spurious. |
| PipeCode.PipeLock.Register | signal_lock/src/pipe.rs:213 | The last step adds one to `waiters`, which does not wrap. |
| PipeCode.PipeLock.Deregister | signal_lock/src/pipe.rs:227-228 | The call holds the lock throughout; the last step takes one from `waiters`, which does not wrap. |
| PipeCode.PipeLock.NotRecursive | signal_lock/src/pipe.rs:236-244 | The tid found in the loop is never this thread's; 0 leads back to the exchange, any other to `read`. |
| PipeCode.PipeLock.ReadByte | signal_lock/src/pipe.rs:246-256 | The last step takes exactly one byte, or none if it is EINTR, and leads back to the exchange. |
| PipeCode.PipeLock.UpdateItem | signal_lock/src/pipe.rs:187-292 | The item is written one higher than it was at the start, and neither it nor the lock changes otherwise. |
| PipeCode.PipeLock.Unlock | signal_lock/src/pipe.rs:276-292 | Returned if and only if the call has returned: at one moment the swap released the lock and counted the critical section; the holder check passes; and the last step writes a byte exactly if the guard was contended or the load, after the swap, found a waiter. |
| PipeCode.PipeLock.WriteByte | signal_lock/src/pipe.rs:297-306 | A write adds one byte, or none to a full pipe, and the call returns; or it is EINTR and the call goes on. |
| PipeCode.PipeLock.UnlockContended | signal_lock/src/pipe.rs:295-309 | EINTR repeats the write; the last step adds a byte or finds the pipe full. |
| FenceOrder.ValueCountsTheRegistered | signal_lock/src/pipe.rs:213-239 | At every place of its modification order, in every execution, `waiters` is the number of lockers registered there. |
| FenceOrder.LoadSeesTheLocker | signal_lock/src/pipe.rs:139-163 | If a locker's exchange fails on a hold's tid, that holder's load of `waiters` reads the locker's increment or a later value. |
| FenceOrder.NoMissedWaiter | signal_lock/src/pipe.rs:139-166 | Then the unlocker writes a byte, or its load already sees the locker's decrement. |
| FenceOrder.TheFencesDecide | signal_lock/src/pipe.rs:147-166 | Two executions differ only in what the load reads: without the fence rule the missed wake is possible, with it exactly the woken one remains, and in one fence order. |
| FenceOrder.SequentialIsAllowed | signal_lock/src/pipe.rs:139-166 | The axioms forbid no sequentially consistent execution, of any length: what is proved of the fences does not come from ruling executions out. |
| FenceOrder.BothWaysOut | signal_lock/src/pipe.rs:139-166 | One allowed execution of two lockers and two holds takes both ways out: an unlocker that wakes nobody, having seen a locker leave, and a contended one that wakes without looking. |
| BarrierSpec.InStep | signal_lock/tests/common/mod.rs:145-164 | In every history of the barrier nobody has left a round that somebody has not entered, and no two participants are more than one round apart. |
| SpinBarrier.StepKeeps | signal_lock/tests/common/mod.rs:145-164 | Every action of any participant is what the barrier's promise allows and keeps count, generation and positions consistent with the rounds. |
| SpinBarrier.RunsRefine | signal_lock/tests/common/mod.rs:145-164 | Every interleaving of any number of participants over any number of rounds keeps the promise. |
| SpinBarrier.CountPositive | signal_lock/tests/common/mod.rs:147-148 | In every reachable state the count is positive before a decrement. |
| SpinBarrier.NobodySpinsForever | signal_lock/tests/common/mod.rs:157-162 | In every reachable state some participant is outside the spin loop or about to leave it. |
| SpinBarrier.EveryoneLeaves | signal_lock/tests/common/mod.rs:145-164 | From any point of any run on, nobody takes more than 11 steps other than idle looks at the generation before everybody has left a round, nor more than 4 more for each further round. |
| SpinBarrier.MomentsAreRuns | signal_lock/tests/common/mod.rs:145-164 | Every moment of a schedule is the interleaving of its steps, with the rounds of its history. |
| SpinBarrier.SpinBarrier.Wait | signal_lock/tests/common/mod.rs:145-164 | Returns if and only if the last step left exactly one round, which everybody has entered; otherwise the schedule has ended with the participant still in it. |
| SpinBarrier.SpinBarrier.Arrive | signal_lock/tests/common/mod.rs:147-150 | The step takes one from a positive count; exactly the one that finds 1 resets the barrier. |
| SpinBarrier.SpinBarrier.ResetCount | signal_lock/tests/common/mod.rs:151 | The step adds the number of threads to the count, before the generation is flipped. |
| SpinBarrier.SpinBarrier.Release | signal_lock/tests/common/mod.rs:150-152 | Then the last step flips the generation and leaves the round. |
| SpinBarrier.SpinBarrier.SpinUntilReleased | signal_lock/tests/common/mod.rs:157-162 | The last step finds another generation and leaves the round. |
| CondvarBarrier.RunsRefine | signal_lock/tests/common/mod.rs:105-125 | Every run, spurious wakeups included, keeps the same promise as SpinBarrier, and the count is never 0 on entry. |
| CondvarBarrier.StepPlays | signal_lock/tests/common/mod.rs:105-125 | Every critical section is an arrival, a departure, the two together for the last, or nothing. |
| CondvarBarrier.SomeoneIsAwake | signal_lock/tests/common/mod.rs:110-114 | In every reachable state somebody is awake and can enter, or leave, a round. |
| CondvarBarrier.EveryoneLeaves | signal_lock/tests/common/mod.rs:105-125 | From any point of any run on, nobody takes more than 5 actions other than looks at the unchanged generation before everybody has left a round, nor more than 2 more for each further round. |
| CondvarBarrier.AnyoneMayEnter | signal_lock/tests/common/mod.rs:105-125 | Any participant outside may enter, whatever the others do: the last flips the generation, fills the count up, wakes everybody and is out again; the others sleep. |
| CondvarBarrier.SleeperMayWake | signal_lock/tests/common/mod.rs:117-124 | A sleeper may wake for no reason, and sleeps again unless the round has ended. |
| CondvarBarrier.MomentsAreRuns | signal_lock/tests/common/mod.rs:105-125 | Every moment of a schedule is the end of a run, with the rounds of its history. |
| CondvarBarrier.CondvarBarrier.Wait | signal_lock/tests/common/mod.rs:105-125 | Returns if and only if the last step left exactly one round, which everybody has entered; otherwise the schedule has ended with the participant still in it. |
| CondvarBarrier.CondvarBarrier.Arrive | signal_lock/tests/common/mod.rs:106-115 | The assertion on the count passes; exactly the one that finds 1 flips the generation and leaves, the others sleep. |
| CondvarBarrier.CondvarBarrier.SleepUntilReleased | signal_lock/tests/common/mod.rs:117-124 | The last step finds another generation and leaves the round, however often the participant woke for nothing. |
| FutexObject.LockUsesFutex | signal_lock/src/futex.rs:153-230 | All that FutexLock does to its futex is an event that the atomic futex permits, with the same word and sleepers after it. |
| FutexObject.LockTakesEveryAnswer | signal_lock/src/futex.rs:35-60 | Conversely, every answer that the atomic futex permits to a call of the lock is a step of the lock, an unasked wakeup while the supply of spurious events lasts. |
| CondvarFutex.StepRefines | signal_lock/src/fake_futex.rs:34-47 | Every action of the condition-variable futex is an event of the atomic one or invisible: no wake falls between a waiter's check and its place in the queue, though the word changes without the mutex. |
| CondvarFutex.RunsRefine | signal_lock/src/fake_futex.rs:34-47 | Every run, seen from outside, is a history that the atomic futex permits, ending with the same word and sleepers. |
| CondvarFutex.OnlyTheQueueBlocks | signal_lock/src/fake_futex.rs:34-47 | A call that is not asleep in the queue is never stuck behind the mutex: some call can go on. |
| CondvarFutex.WordMayChange | signal_lock/src/fake_futex.rs:36-39 | In every reachable state the word may change to anything, also between a waiter's check and its place in the queue. |
| CondvarFutex.SleeperMayWake | signal_lock/src/fake_futex.rs:39-41 | A queued waiter may wake for no reason. |
| CondvarFutex.AnySleeperMayBeNotified | signal_lock/src/fake_futex.rs:44-47 | Any queued waiter may be the one that is notified. |
| CondvarFutex.WaitTakesEffect | signal_lock/src/fake_futex.rs:34-42 | A call of `wait` that finds the mutex free and is left alone ends in the queue if the word is as expected, and otherwise returns with nothing changed. |
| CondvarFutex.WakeTakesEffect | signal_lock/src/fake_futex.rs:44-47 | A call of `wake_one` that is left alone takes one waiter off the queue, or changes nothing if there is none. |
| CondvarFutex.MomentsRefine | signal_lock/src/fake_futex.rs:34-47 | At every moment of a schedule the atomic futex permits what happens and follows it. |
| CondvarFutex.FakeFutex.Wait | signal_lock/src/fake_futex.rs:34-42 | Returned if and only if the call has returned: at one moment of it the thread fell asleep on the expected word if the word was that, and declined if not. |
| CondvarFutex.FakeFutex.WakeOne | signal_lock/src/fake_futex.rs:44-47 | Returned if and only if the call has returned: at one moment of it one sleeper was woken, or nobody slept. |
| FutexOverCondvar.StepSimulates | signal_lock/src/fake_futex.rs:34-47 | Every step of FutexLock over the condition-variable futex is a step of FutexLock over the atomic one, or cannot be seen. |
| FutexOverCondvar.RunsSimulate | signal_lock/src/fake_futex.rs:34-47 | So every run of the composition is a run of FutexMachine, to the same word and counter. |
| FutexOverCondvar.NoDeadlock | signal_lock/src/fake_futex.rs:34-47 | In every reachable state of the composition, with any threads and handlers, an unfinished call implies that some thread can go on by itself. |
| FutexOverCondvar.RunsAreFinite | signal_lock/src/fake_futex.rs:34-47 | Every run of the composition with c calls and signals and s spurious events has at most 35(5c+s)^2 steps. |
| FutexOverCondvar.StoppedRunsAreComplete | signal_lock/src/fake_futex.rs:34-47 | A run of the composition that cannot go on has returned from every call, with the word 0 and every critical section counted. |
| FutexOverCondvar.CallStarts | signal_lock/src/futex.rs:140-150 | In every reachable state of the composition a thread that is in no call may start one. |
| FutexOverCondvar.SignalLands | signal_lock/src/fake_signal.rs:1-5 | A signal may interrupt a call anywhere outside the stand-in's own calls, a holder included. |
| FutexOverCondvar.WeakExchangeMayFail | signal_lock/src/futex.rs:163-189 | The weak exchanges may fail on the value that they expect. |
| FutexOverCondvar.SleeperMayWake | signal_lock/src/fake_futex.rs:39-41 | Whoever waits in the queue may wake for no reason. |
| FutexOverCondvar.AnySleeperMayBeNotified | signal_lock/src/fake_futex.rs:44-47 | Any of them may be the one that is notified. |
| CondvarPipe.RunsKeep | signal_lock/src/pipe.rs:66-93 | In every run the pipe holds at most two bytes, and a reader waits while there are bytes only if a notification is on its way. |
| CondvarPipe.RunsRefine | signal_lock/src/pipe.rs:66-93 | Every run, seen from outside, is a history of an atomic pipe of two bytes, with the same bytes. |
| CondvarPipe.BlocksOnlyWhenEmpty | signal_lock/src/pipe.rs:66-93 | When no call can go on by itself, all that is left are readers of an empty pipe. |
| CondvarPipe.WriteTakesEffect | signal_lock/src/pipe.rs:77-93 | From every reachable state a thread may write: with fewer than two bytes it adds one and wakes every queued reader, with two it comes back with nothing changed. |
| CondvarPipe.ReadTakesEffect | signal_lock/src/pipe.rs:66-75 | From every reachable state a thread may read: with a byte it takes one, without it waits. |
| CondvarPipe.TwoBytesFit | signal_lock/src/pipe.rs:77-93 | A run fills the pipe with exactly two bytes. |
| CondvarPipe.SleeperMayWake | signal_lock/src/pipe.rs:66-75 | A queued reader may wake for no reason, and looks again. |
| CondvarPipe.LoomPipe.Read | signal_lock/src/pipe.rs:66-75 | Returned if and only if the call has returned: its last step took one byte. |
| CondvarPipe.LoomPipe.Write | signal_lock/src/pipe.rs:77-93 | Returned if and only if the call has returned: at one moment of it a byte was added, exactly if there were fewer than two, and then no reader is left in the queue; otherwise the pipe was found full. |
| PipeOverCondvar.StepSimulates | signal_lock/src/pipe.rs:66-93 | Every step of PipeLock over this pipe is a step of PipeLock over an atomic one, or cannot be seen. |
| PipeOverCondvar.RunsSimulate | signal_lock/src/pipe.rs:66-93 | So every run of the composition is a run of PipeMachine with capacity two. |
| PipeOverCondvar.NoDeadlock | signal_lock/src/pipe.rs:66-93 | In every reachable state of the composition an unfinished call implies that some thread can go on by itself. |
| PipeOverCondvar.RunsAreFinite | signal_lock/src/pipe.rs:66-93 | Every run of the composition with n threads, c calls and signals, s spurious events and w spurious wakeups has at most (n+4)(14c+3s)+2w steps. |
| PipeOverCondvar.StoppedRunsAreComplete | signal_lock/src/pipe.rs:66-93 | A run of the composition that cannot go on has returned from every call, with the lock free and every critical section counted. |
| PipeOverCondvar.CallStarts | signal_lock/src/pipe.rs:187-201 | In every reachable state of the composition a thread that is in no call may start one. |
| PipeOverCondvar.SignalLands | signal_lock/src/fake_signal.rs:1-5 | A signal may interrupt a call anywhere outside the stand-in's own calls, a holder included. |
| PipeOverCondvar.WeakExchangeMayFail | signal_lock/src/pipe.rs:187-236 | Both weak exchanges may fail on 0. |
| PipeOverCondvar.SleeperMayWake | signal_lock/src/pipe.rs:66-75 | Whoever waits for a byte may wake for no reason. |
| OptimisticHandler.InvKept | signal_lock/examples/optimistic_handler.rs:27-59 | Every action keeps: a set flag will be looked at, and an unserved signal has its flag set or somebody on the way to serve it. |
| OptimisticHandler.NoSignalLost | signal_lock/examples/optimistic_handler.rs:27-59 | In any run of any number of threads, once all are out of handlers and drain loops, `do_the_thing` has started after the last delivery and the flag is clear. |
| OptimisticHandler.NormalCodeIsNeverRefused | signal_lock/examples/optimistic_handler.rs:46-56 | The two `lock().unwrap()` never panic. |
| OptimisticHandler.SignalOnHolderIsDeferred | signal_lock/examples/optimistic_handler.rs:34-59 | After every run a signal on code that holds the lock, in the critical section or in the drain loop, sets the flag and changes nothing else. On the drain loop this is why the source loops. |
| OptimisticHandler.SignalArrives | signal_lock/examples/optimistic_handler.rs:27-42 | A signal may arrive on any thread at any point, unless its handler is running already. |
| OptimisticHandler.NormalCodeStarts | signal_lock/examples/optimistic_handler.rs:44-48 | Normal code may start on any thread that is doing nothing else, whatever the others do. |
| OptimisticHandler.SignalIsServed | signal_lock/examples/optimistic_handler.rs:29-33 | With the lock free, a signal anywhere is served by its handler in three actions, and then none is unserved. |
| OptimisticHandler.LockRunsRefine | signal_lock/examples/optimistic_handler.rs:27-59 | What the program does to its lock in any run is a history of the abstract lock that both locks refine. |
| OptimisticHandler.LockAnswers | signal_lock/examples/optimistic_handler.rs:29-46 | A call for the lock goes on exactly when the abstract lock would grant it or, to a handler, refuse it. |
| OptimisticHandler.SomeoneMoves | signal_lock/examples/optimistic_handler.rs:27-59 | While anybody is in a handler or in normal code, some thread can go on by itself. |
| OptimisticHandler.RunsAreFinite | signal_lock/examples/optimistic_handler.rs:55-59 | A run with e calls of normal code and d signals has at most 4e+7d steps, extra passes of the drain loops included. |
| OptimisticHandler.StoppedRunsServeEverySignal | signal_lock/examples/optimistic_handler.rs:27-59 | A run that cannot go on has served every signal, with everybody back, the lock free and the flag clear. |
| OptimisticHandler.Program.SignalHandler | signal_lock/examples/optimistic_handler.rs:27-42 | Returned if and only if the handler has returned: it does the thing itself, at one moment and holding the lock, exactly when the code it interrupted does not hold the lock; otherwise its last step sets the flag, with somebody bound to look at it. |
| OptimisticHandler.Program.NormalCode | signal_lock/examples/optimistic_handler.rs:44-59 | Returned if and only if normal code has left its drain loop: its last step finds the flag clear, and a signal that is unserved then has somebody on the way to serve it. |
| OptimisticHandler.Program.ServeDeferred | signal_lock/examples/optimistic_handler.rs:55-59 | One pass of the drain loop does the thing at one moment, holding the lock, and is about to look at the flag again. |
| IntervalIndex.PredecessorIsGreatest | mmapcatch/src/lib.rs:134-137 | Taking the last key of the range up to an address finds the greatest such key, if any. |
| IntervalIndex.LookupAddrIsAFullScan | mmapcatch/src/lib.rs:132-140 | Looking at one entry finds the entry that contains the address, exactly if there is one, and it is unique. |
| IntervalIndex.LookupOverlapIsAFullScan | mmapcatch/src/lib.rs:142-151 | Looking at one entry reports an overlap exactly when any entry intersects, and then the one that starts last. |
| IntervalIndex.OnePredecessorNeedsDisjointness | mmapcatch/src/lib.rs:135 | Without disjoint entries the one-entry search misses a mapping. |
| IntervalIndex.InsertKeeps | mmapcatch/src/lib.rs:327-349 | Registering after an empty overlap search keeps entries disjoint and replaces none. |
| Bits.AndHighMask | mmapcatch/src/lib.rs:419-420 | Masking with the complement of the low k bits rounds down to a multiple of 2^k, for words of any width. |
| Bits.OneBitIsPowerOfTwo | mmapcatch/src/lib.rs:412-417 | A word that passes the handler's one-bit check is a power of two. |
| PageRepair.MaskRoundsDown | mmapcatch/src/lib.rs:419-420 | `addr & !(page - 1)` is the start of the page that contains the address. |
| PageRepair.PageSizesArePowers | mmapcatch/src/lib.rs:412-417 | The handler's check on the page size lets exactly the powers of two through that fit a word. |
| PageRepair.RepairIsASuffix | mmapcatch/src/lib.rs:420-425 | Neither subtraction wraps; the replaced area starts at the fault's page, is not empty and ends where the mapping ends. |
| PageRepair.RepairTouchesNoOther | mmapcatch/src/lib.rs:428-437 | Even rounded up to whole pages it touches no other page-aligned mapping. |
| PageRepair.ReplacedIsASuffix | mmapcatch/src/lib.rs:405-448 | After any sequence of faults the replaced area is exactly the mapping from the least fix_start on. |
| PageRepair.FixAddressFalls | mmapcatch/src/lib.rs:420-446 | If no fault is on replaced memory, fix_addr falls by at least a page with each fault. |
| PageRepair.FaultsAreBounded | mmapcatch/src/lib.rs:405-448 | And the mapping faults at most once per page, ceil(len/page) times. |
| PageRepair.EveryPageMayFault | mmapcatch/src/lib.rs:405-448 | The bound is reached: a mapping can fault ceil(len/page) times, each time on memory not replaced before. |
| Mmapcatch.MatchedInsert | mmapcatch/src/lib.rs:334-351 | Registering keeps live guards and entries in one-to-one correspondence, each pair sharing a state of its own. |
| Mmapcatch.MatchedRemove | mmapcatch/src/lib.rs:255-261 | So does dropping a guard. |
| Mmapcatch.RepairInIndex | mmapcatch/src/lib.rs:405-437 | In a registry of page-aligned mappings a repair replaces the rest of the mapping that faulted and disturbs no other entry. |
| Mmapcatch.Root.RegisterMmap | mmapcatch/src/lib.rs:324-352 | Fails exactly when a live mapping intersects, naming the one of them that starts last and changing nothing; otherwise adds this entry, with a new guard and a new state. |
| Mmapcatch.Root.DropGuard | mmapcatch/src/lib.rs:255-261 | Removes the guard's own entry and no other; neither the `expect` nor the pointer assertion can fail. |
| Mmapcatch.Root.HandleSigbus | mmapcatch/src/lib.rs:373-452 | Repairs exactly the genuine faults (SIGBUS, 7, with BUS_ADRERR, 2, or BUS_OBJERR, 3, at an address other than 0) on a registered mapping that can be repaired, with that mapping's protection, aborts on each of the others with the source's reason (no ROOT, recursion, no mapping, no page size, a page size that fails the debug check, page zero, a failed mmap), and records the fault in that mapping's state only. |
| TryOnce.InvKept | mmapcatch/src/lib.rs:50-116 | Every action of any thread keeps: `init` implies a written root, and a root half-written or written and not yet published belongs to the holder of the mutex. |
| TryOnce.WrittenOnceReadWhole | mmapcatch/src/lib.rs:91-116 | In every run the root is written at most once, every reader sees it whole with no write going on, and the unwrap never panics. |
| TryOnce.FailureIsRetryable | mmapcatch/src/lib.rs:103-107 | After a failed initialiser nothing has changed but that the mutex is free for whoever waits for it. |
| TryOnce.SucceedsAfterAnyFailures | mmapcatch/src/lib.rs:50-65 | From every reachable state with the mutex free and no root, the initialiser can fail exactly any given number of times and then succeed, to a reader of the written root. |
| TryOnce.SomeoneMoves | mmapcatch/src/lib.rs:50-65 | While any call is unfinished, some thread can take its next action: the mutex is never held for good. |
| TryOnce.RunsAreFinite | mmapcatch/src/lib.rs:50-116 | A run with i calls of get_or_init and g of get has at most 11i+3g steps. |
| TryOnce.SuccessIsFinal | mmapcatch/src/lib.rs:50-65 | Once initialised, the root never changes again. |
| TryOnce.InitialisedNeedsNoMutex | mmapcatch/src/lib.rs:50-53 | Once initialised, from every reachable state and whoever holds the mutex, get_or_init is three actions of its own thread: it does not take the mutex. |
| TryOnce.GetNeedsNoMutex | mmapcatch/src/lib.rs:91-98 | get is always two actions of its own thread: a reference if the root is initialised, none if not. |
| TryOnce.UninitialisedWaits | mmapcatch/src/lib.rs:54 | Before that, a call of get_or_init comes to wait for the mutex, whoever holds it. |
| TryOnce.InitialiserMayFail | mmapcatch/src/lib.rs:103-107 | The initialiser may fail whenever it is called, which frees the mutex and changes nothing else. |
| TryOnce.StaticRoot.TryCall | mmapcatch/src/lib.rs:50-65 | Ok and Err, if and only if the call has returned so: Ok with the root written exactly once and for good, Err with no root, a free mutex and this call its last holder; a call that finds `init` set at its first look ends with that look. |
| TryOnce.StaticRoot.CallInitialiser | mmapcatch/src/lib.rs:100-111 | The closure starts on an unwritten root; Ok leaves it written once and initialised, Err untouched. |
| TryOnce.StaticRoot.WriteAndStore | mmapcatch/src/lib.rs:60-62 | At the moment of the store to `init` the root is whole and `init` not yet set. |
| TryOnce.StaticRoot.Get | mmapcatch/src/lib.rs:91-98 | A reference if and only if `init` is set at its last step, and then to a written root; never None to a caller that unwraps. |

## Left out

- System calls, FFI and platform probing (`futex`, `pipe2`, `fcntl`, `mmap`, `sigaction`, `gettid`): only the abstract effect of each on the state is modelled; the constants in Mmapcatch are Linux's.
- Error paths that abort the process in the locks (a failing futex call, a failed read or write other than EINTR and EAGAIN, a closed pipe), `StderrWriter`, saving and restoring errno, benches.
- `signal_lock/src/park.rs` is unfinished and not part of the crate; `fake_signal.rs` is replaced by the step that lets a signal interrupt any call anywhere.
- Leaked guards, panics and mutex poisoning: with a leaked guard most of the above is false, and the source documents it so. The poisoned-registry check is an assertion that always passes.
- FutexCode.FutexLock.RawLock: a schedule may end before the call does, and then says so; that every call returns in every run that goes on as long as it can is in FutexTermination, and the same split holds for the other classes.
- FutexOverCondvar and PipeOverCondvar: no signal arrives inside the stand-ins' own calls, which are not safe in signal handlers; the loom tests deliver signals only at chosen points outside them (signal_lock/src/fake_signal.rs:1-5).
- Weak memory outside FenceOrder: all machines take sequentially consistent steps. FenceOrder uses the base cases of coherence-ordered-before without its transitive closure, which only admits more executions, and takes the modifications of `waiters` as unbounded additions, which PipeSafety.WaitersKept justifies.
- PipeTermination.RunsAreFinite: a call or signal step is enabled only while fewer than 2^32 calls are alive.
- CondvarBarrier and CondvarPipe: a critical section under the mutex is one step, the wait on the condition variable being its end; the source's mutex admits no finer interleaving of the guarded fields. In CondvarFutex, where the word is not guarded, every action is separate.
- `From<PipeNewError> for RegisterError` (mmapcatch/src/lib.rs:215-222) turns each of its two variants into the other; registration errors other than overlap are not modelled.
- Mmapcatch.Root.RegisterMmap: empty mappings and mappings that reach past the address space are excluded, as the function's safety contract does; HandleSigbus in addition assumes page-aligned starts, and in a release build, which does not check it, that the page size is a power of two.
- Whether the memory behind a registered mapping exists and faults; what `mmap` puts into the replaced pages.
- Fairness between threads: neither lock promises it.
- The counts of SpinBarrier and CondvarBarrier are unbounded integers; their constructors bound the number of threads.
