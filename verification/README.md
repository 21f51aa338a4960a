# Task state machine and wake protocol

This project models two pieces of the executor's task core:

- the per-task state word. It is a set of four flags: Spawned, ReadyQueued, WaitQueued and TimerQueued. It is changed only by single atomic `fetch_or`/`fetch_and` operations, and each one reports the word it replaced.
- the wake protocol built on that word. `wake_task` hands a task to its executor's ready queue only when `ready_enqueue` reports that this call set ReadyQueued. The executor passes the task to its installed scheduler with a single `add_task` call.

Each atomic read-modify-write is one indivisible step. It is a pure function from the old word to the new word plus the operation's answer. The installed scheduler is a trait object with no implementation in view, so it is modelled as the log of trait calls it receives. The `add_task` entries of that log make up the ready queue as far as the model can know it.

Modules:

- `TaskState` (`state.dfy`): the flag constants and the six operations. It also gives the `Display` name, a boolean `Flags` view used as the reference for the bit operations, and the states reachable from `State::new`.
- `TaskHandle` (`task_ref.dfy`): `TaskRef` as a non-null address, and `from_ptr`, `as_ptr` and `virt_task`.
- `Executors` (`executor.dfy`): the scheduler call log, `Executor::new` and `Executor::wake_task`.
- `WakeProtocol` (`wake.dfy`): a world of live tasks and executors, `wake_task`, and runs of events. It proves the exactly-once insertion property.
- `Wrappers` (`wrappers.dfy`): `Option`, `Result` and `unwrap`.

Some choices follow the code rather than the doc comment:

- The comment on `ready_enqueue` says it marks the task only if the task is spawned. The code makes no such check. The model follows the code (`TaskState.ReadyEnqueue`). `TaskState.CheckedReadyEnqueue` is the version the comment describes. The two agree in every state reachable from `State::new`, because nothing ever clears Spawned (`TaskState.SpawnedCheckUnobservable`). They differ exactly on the words with neither Spawned nor ReadyQueued (`TaskState.SpawnedCheckMissing`).
- Nothing in the code keeps a task in at most one queue, and the model does not assume it: `Display` picks a name by priority whatever combination of bits is set.

## Model

| member | source | states |
|---|---|---|
| `TaskState.New` | src/state.rs:17-21 | a new state has Spawned and no queue flag, in the boolean flag view |
| `TaskState.ReadyEnqueue` | src/state.rs:23-28 | sets ReadyQueued and leaves every other bit; reports true iff ReadyQueued was clear before; no Spawned check |
| `TaskState.ReadyDequeue` | src/state.rs:30-35 | clears ReadyQueued only; reports whether Spawned was set in the replaced word |
| `TaskState.TimerEnqueue` | src/state.rs:37-42 | sets TimerQueued only; reports true iff it was clear before |
| `TaskState.TimerDequeue` | src/state.rs:44-48 | clears TimerQueued only |
| `TaskState.WaitEnqueue` | src/state.rs:50-55 | sets WaitQueued only; reports true iff it was clear before |
| `TaskState.WaitDequeue` | src/state.rs:57-61 | clears WaitQueued only |
| `TaskState.Name` | src/state.rs:64-78 | the displayed name is one of four; "ReadyQueued" iff ready, "WaitQueued" iff wait and not ready, "TimerQueued" iff timer and neither, else "Spawned" |
| `TaskState.DecodeEncode` | src/state.rs:3-10 | the four flags encode as distinct bits: encoding a flag set and decoding it gives it back |
| `TaskState.EncodeDecode` | src/state.rs:3-10 | every state word is exactly the encoding of its decoded flags |
| `TaskState.OperationsMatchFlags` | src/state.rs:25-61 | in the flag view each operation sets or clears its own flag and keeps the other three |
| `TaskState.EnqueueIdempotent` | src/state.rs:25-55 | a second enqueue of the same kind reports false and leaves the word unchanged |
| `TaskState.EnqueueDequeueRestores` | src/state.rs:80-105 | an enqueue followed by its dequeue gives back the original word when the flag was clear |
| `TaskState.NameIgnoresSpawned` | src/state.rs:66-75 | the displayed name does not depend on the Spawned bit |
| `TaskState.Apply` | src/state.rs:25-61 | no operation clears Spawned; only ready_dequeue clears ReadyQueued |
| `TaskState.RunKeepsSpawned` | src/state.rs:17-61 | any sequence of operations from a spawned word keeps Spawned |
| `TaskState.ReachableDequeueReportsSpawned` | src/state.rs:30-35 | in every state reachable from `new`, ready_dequeue reports true |
| `TaskState.NoDequeueKeepsReady` | src/state.rs:25-61 | with no ready dequeue, ReadyQueued stays set through any operations |
| `TaskState.SecondReadyEnqueueFails` | src/state.rs:25-28 | of two ready enqueues with no ready dequeue between them, the second reports false, whatever happens between |
| `TaskState.CheckedReadyEnqueue` | src/state.rs:23 | the enqueue the comment describes: fresh iff spawned and not ready; on a spawned word it sets ReadyQueued and keeps every other bit; an unspawned word is left alone |
| `TaskState.SpawnedCheckUnobservable` | src/state.rs:23-28 | from `new`, the unchecked enqueue equals the checked one in every reachable state |
| `TaskState.SpawnedCheckMissing` | src/state.rs:23-28 | on a word without Spawned, the code and the commented version differ exactly when ReadyQueued is clear too; there the code sets ReadyQueued and reports true |
| `TaskState.StateFmtWalk` | src/state.rs:80-105 | the test's walk shows Spawned, ReadyQueued, Spawned, WaitQueued, Spawned, TimerQueued, Spawned, Spawned and ends at `new`'s word |
| `TaskHandle.NonNullNew` | src/task/mod.rs:76-80 | `NonNull::new` is `None` exactly for the null address and keeps any other |
| `TaskHandle.AsPtr` | src/task/mod.rs:82-85 | the pointer of a handle is never null |
| `TaskHandle.FromPtr` | src/task/mod.rs:75-80 | wrapping succeeds iff the address is non-null, then `as_ptr` gives it back; null panics in `unwrap` |
| `TaskHandle.VirtTask` | src/task/mod.rs:68-73 | the same as `from_ptr` for an address given as an integer, including the panic on 0 |
| `TaskHandle.FromPtrAsPtr` | src/task/mod.rs:75-85 | wrapping a handle's own pointer gives back that handle |
| `TaskHandle.AsPtrInjective` | src/task/mod.rs:57-62 | handles are equal iff their pointers are |
| `Executors.Added` | src/interface.rs:12-13 | a task is among the added ones iff an `add_task` call carried it |
| `Executors.AddedCounts` | src/interface.rs:12-13 | each task occurs among the added ones exactly as many times as `add_task` was called with it |
| `Executors.New` | src/executor.rs:10-14 | the executor holds exactly the scheduler given to it |
| `Executors.WakeTask` | src/executor.rs:16-18 | exactly one call is appended to the scheduler's log: `add_task` with this handle; no other call kind is made and the ready queue grows by the handle |
| `Executors.WakeTwiceAddsTwice` | src/executor.rs:16-18 | no de-duplication: two wakes make two `add_task` calls of the handle and nothing else |
| `Executors.NewThenWake` | src/executor.rs:10-18 | a wake on a new executor reaches the scheduler it was built with |
| `WakeProtocol.WakeTask` | src/task/mod.rs:116-123 | afterwards the task is ready-queued with its other flags, its executor and every other task unchanged; its own executor gets `add_task` of this handle iff `ready_enqueue` reported a fresh set, i.e. iff ReadyQueued was clear; no other executor is touched |
| `WakeProtocol.WakeIdempotent` | src/task/mod.rs:116-123 | a second wake right after a first changes nothing |
| `WakeProtocol.WakeIgnoresOtherFlags` | src/task/mod.rs:119-120 | whether a wake inserts depends only on ReadyQueued, not on Spawned, WaitQueued or TimerQueued |
| `WakeProtocol.Transition` | src/state.rs:30-61 | a ready dequeue leaves ReadyQueued clear; the wait and timer transitions leave it as it was |
| `WakeProtocol.Perform` | src/state.rs:25-61 | one event changes only its own task's state and never an executor, unless it is a wake |
| `WakeProtocol.PerformAll` | src/state.rs:25-61 | a run of events keeps every task's executor and the world's shape |
| `WakeProtocol.StepBalance` | src/task/mod.rs:116-123 | one event changes a task's insertion count and ReadyQueued bit in step: an insertion sets the bit, an effective ready dequeue clears it |
| `WakeProtocol.InsertionBalance` | src/task/mod.rs:116-123 | over any run, insertions + initial bit = initial insertions + effective ready dequeues + final bit |
| `WakeProtocol.RunWithoutTake` | src/state.rs:25-35 | without a ready dequeue of a task, it ends ready-queued iff it started so or was woken |
| `WakeProtocol.AtMostOneInsertion` | src/task/mod.rs:116-123 | with no ready dequeue of a task, any run inserts it at most once, and exactly once iff it was not ready-queued and was woken |
| `WakeProtocol.Wakes` | src/task/mod.rs:116 | n wakes of one task in a row |
| `WakeProtocol.RepeatedWakes` | src/task/mod.rs:116-123 | n > 0 wakes of a task insert it exactly once if it was not ready-queued and never otherwise |

## Left out

- The state word is `bv4`, not a 32-bit word. The source's `AtomicU32` starts at 1. Every `fetch_or` ors in one of the four low bits, and a `fetch_and` can only clear bits, so the upper 28 bits are always zero.
- Memory ordering (`AcqRel`, `Relaxed`) and true interleavings are left out. Each atomic operation is one sequential step.
- `WakeProtocol.WakeTask`: the `fetch_or` of `ready_enqueue` and the following `add_task` (src/task/mod.rs:119-120) are one indivisible `Wake` event here. In the code they are separate steps, and another thread can run between one wake's mark and its insertion; that window is not modelled, so the insertion results hold for runs in which every marked wake has finished its insertion.
- `TaskRef::poll` and `Task::from_ref` are left out. They rebuild an `Arc` from a raw pointer and poll a `dyn Future` through a waker built by the waker module, and that module is not part of this model, so the reference counting they rely on cannot be stated.
- `TaskRef::from_cx` is left out. It reads the raw data pointer of a `Waker`, which is a foreign call.
- The hot swap of the scheduler is left out, along with the aliasing `&mut` taken through `AtomicCell::as_ptr` in `Executor::wake_task`. The executor's scheduler is a fixed value in the model.
- `BaseScheduler` and `BaseQueue` have no implementation in view. The scheduler is seen only through the calls it receives, and no removal order for `pick_next_task` or `put_prev_task` is assumed.
- The wait and timer queues are not part of this model. Only their state transitions appear, as `EnterWait`/`LeaveWait`/`EnterTimer`/`LeaveTimer` events.
- Spawning is not part of this model. It performs the first `ready_enqueue` and insertion.
- The future and the process/thread/coroutine info slots of `Task` carry no behaviour here. Neither do the marker traits and id handles.
- `TaskHandle.Addr` assumes a 64-bit `usize`. The crate fixes no target, and on a narrower one the address range is smaller; nothing in the model depends on the width beyond 0 being the null address.
- `SyncSendUnsafeCell` and the `ExecutorErr` enum are left out. Neither is used by the logic modelled here.
- `Display::fmt` is modelled as the name it writes. The `Formatter` and its error result are left out.
