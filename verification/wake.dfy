/** The wake protocol: a task goes to its executor's ready queue only when
    the atomic `ready_enqueue` reports that this very call set ReadyQueued.

    The model is a world of live tasks, keyed by their handles, and of
    executors, keyed by identity. Each task keeps the state word and the
    identity of the executor it belongs to; the future and the
    process/thread/coroutine slots are not modelled. */
module WakeProtocol {
  import opened TaskState
  import opened TaskHandle
  import Executors

  /** Identity of a `&'static Executor`. */
  type ExecutorId = nat

  /** The parts of a task control block that the wake protocol touches. */
  datatype Task = Task(state: Word, executor: ExecutorId)

  datatype World = World(tasks: map<TaskRef, Task>, executors: map<ExecutorId, Executors.Executor>)

  /** Every task's executor exists: a task holds a `'static` reference to it. */
  predicate Valid(w: World) {
    forall t :: t in w.tasks ==> w.tasks[t].executor in w.executors
  }

  predicate ReadyQueued(w: World, t: TaskRef)
    requires t in w.tasks
  {
    Has(w.tasks[t].state, READY_QUEUED)
  }

  /** The calls executor `x`'s scheduler has received. */
  function Calls(w: World, x: ExecutorId): seq<Executors.SchedCall>
    requires x in w.executors
  {
    w.executors[x].readyQueue.calls
  }

  /** How many times `t` has been handed to its own executor's scheduler. */
  function Insertions(w: World, t: TaskRef): nat
    requires Valid(w) && t in w.tasks
  {
    multiset(Calls(w, w.tasks[t].executor))[Executors.AddTask(t)]
  }

  /** One task's state word replaced, everything else kept. */
  function SetState(w: World, t: TaskRef, s: Word): (r: World)
    requires Valid(w) && t in w.tasks
    ensures Valid(r) && r.tasks.Keys == w.tasks.Keys && r.executors == w.executors
    ensures r.tasks[t] == w.tasks[t].(state := s)
    ensures forall u :: u in w.tasks && u != t ==> r.tasks[u] == w.tasks[u]
  {
    w.(tasks := w.tasks[t := w.tasks[t].(state := s)])
  }

  /** `wake_task`: set ReadyQueued and, only if this call set it, hand the
      handle to the task's own executor. */
  function WakeTask(w: World, t: TaskRef): (r: World)
    requires Valid(w) && t in w.tasks
    ensures Valid(r)
    ensures r.tasks.Keys == w.tasks.Keys && r.executors.Keys == w.executors.Keys
    // after the call the task is ready-queued, whoever queued it
    ensures ReadyQueued(r, t)
    // its other flags and its executor are untouched
    ensures Outside(r.tasks[t].state, READY_QUEUED) == Outside(w.tasks[t].state, READY_QUEUED)
    ensures r.tasks[t].executor == w.tasks[t].executor
    // no other task changes
    ensures forall u :: u in w.tasks && u != t ==> r.tasks[u] == w.tasks[u]
    // no other executor is touched
    ensures forall x :: x in w.executors && x != w.tasks[t].executor ==> r.executors[x] == w.executors[x]
    // the own executor receives one add_task of this very handle exactly
    // when ready_enqueue reports a fresh set, i.e. when the flag was clear
    ensures Calls(r, w.tasks[t].executor) == Calls(w, w.tasks[t].executor) + (if ReadyEnqueue(w.tasks[t].state).result then [Executors.AddTask(t)] else [])
    ensures ReadyEnqueue(w.tasks[t].state).result <==> !ReadyQueued(w, t)
  {
    var task := w.tasks[t];
    var step := ReadyEnqueue(task.state);
    var w1 := SetState(w, t, step.next);
    if step.result then
      w1.(executors := w1.executors[task.executor := Executors.WakeTask(w1.executors[task.executor], t)])
    else
      w1
  }

  /** A second wake, with nothing in between, changes nothing at all. */
  lemma WakeIdempotent(w: World, t: TaskRef)
    requires Valid(w) && t in w.tasks
    ensures WakeTask(WakeTask(w, t), t) == WakeTask(w, t)
  {
    var w1 := WakeTask(w, t);
    var s1 := w1.tasks[t].state;
    assert !ReadyEnqueue(s1).result;
    assert ReadyEnqueue(s1).next == s1 by {
      EnqueueIdempotent(w.tasks[t].state);
    }
    assert w1.tasks[t := w1.tasks[t].(state := s1)] == w1.tasks;
    assert SetState(w1, t, s1) == w1;
  }

  /** Whether a wake inserts depends only on ReadyQueued: Spawned,
      WaitQueued and TimerQueued are not consulted. */
  lemma WakeIgnoresOtherFlags(w: World, t: TaskRef, s: Word)
    requires Valid(w) && t in w.tasks
    requires Has(s, READY_QUEUED) == ReadyQueued(w, t)
    ensures WakeTask(SetState(w, t, s), t).executors == WakeTask(w, t).executors
  {
  }

  // -------------------------------------------------------------------------
  // Runs of events
  // -------------------------------------------------------------------------

  /** What can happen to a task: a wake, or one of the state transitions the
      ready-queue consumer and the wait and timer queues perform. */
  datatype Event =
    | Wake(task: TaskRef)
    | TakeReady(task: TaskRef)
    | EnterWait(task: TaskRef)
    | LeaveWait(task: TaskRef)
    | EnterTimer(task: TaskRef)
    | LeaveTimer(task: TaskRef)

  /** The state transition a non-wake event performs on its task's word. */
  function Transition(ev: Event, s: Word): (r: Word)
    requires !ev.Wake?
    ensures ev.TakeReady? ==> !Has(r, READY_QUEUED)
    ensures !ev.TakeReady? ==> (Has(r, READY_QUEUED) <==> Has(s, READY_QUEUED))
  {
    match ev
    case TakeReady(_) => ReadyDequeue(s).next
    case EnterWait(_) => WaitEnqueue(s).next
    case LeaveWait(_) => WaitDequeue(s)
    case EnterTimer(_) => TimerEnqueue(s).next
    case LeaveTimer(_) => TimerDequeue(s)
  }

  function Perform(w: World, ev: Event): (r: World)
    requires Valid(w) && ev.task in w.tasks
    ensures Valid(r)
    ensures r.tasks.Keys == w.tasks.Keys && r.executors.Keys == w.executors.Keys
    ensures forall u :: u in w.tasks ==> r.tasks[u].executor == w.tasks[u].executor
    ensures forall u :: u in w.tasks && u != ev.task ==> r.tasks[u] == w.tasks[u]
    ensures !ev.Wake? ==> r.executors == w.executors
  {
    if ev.Wake? then WakeTask(w, ev.task)
    else SetState(w, ev.task, Transition(ev, w.tasks[ev.task].state))
  }

  predicate AllKnown(w: World, evs: seq<Event>) {
    forall ev :: ev in evs ==> ev.task in w.tasks
  }

  /** The world after a sequence of events, one indivisible step each. */
  function PerformAll(w: World, evs: seq<Event>): (r: World)
    requires Valid(w) && AllKnown(w, evs)
    ensures Valid(r)
    ensures r.tasks.Keys == w.tasks.Keys && r.executors.Keys == w.executors.Keys
    ensures forall u :: u in w.tasks ==> r.tasks[u].executor == w.tasks[u].executor
    decreases |evs|
  {
    if |evs| == 0 then w
    else
      assert evs[0] in evs;
      assert forall ev :: ev in evs[1..] ==> ev in evs;
      PerformAll(Perform(w, evs[0]), evs[1..])
  }

  /** Whether `e` occurs among the events. */
  predicate Occurs(evs: seq<Event>, e: Event)
    decreases |evs|
  {
    |evs| > 0 && (evs[0] == e || Occurs(evs[1..], e))
  }

  lemma {:induction false} OccursIsMembership(evs: seq<Event>, e: Event)
    ensures Occurs(evs, e) <==> e in evs
    decreases |evs|
  {
    if |evs| > 0 {
      OccursIsMembership(evs[1..], e);
      assert evs == [evs[0]] + evs[1..];
    }
  }

  function Bit(w: World, t: TaskRef): nat
    requires t in w.tasks
  {
    if ReadyQueued(w, t) then 1 else 0
  }

  /** How many of the events take `t` out of the ready state while it is in it. */
  function Unreadied(w: World, evs: seq<Event>, t: TaskRef): nat
    requires Valid(w) && AllKnown(w, evs) && t in w.tasks
    decreases |evs|
  {
    if |evs| == 0 then 0
    else
      assert evs[0] in evs;
      assert forall ev :: ev in evs[1..] ==> ev in evs;
      (if evs[0] == TakeReady(t) && ReadyQueued(w, t) then 1 else 0)
      + Unreadied(Perform(w, evs[0]), evs[1..], t)
  }

  /** One event's effect on the insertion count of `t` and on its flag. */
  lemma StepBalance(w: World, ev: Event, t: TaskRef)
    requires Valid(w) && ev.task in w.tasks && t in w.tasks
    ensures Insertions(Perform(w, ev), t) + Bit(w, t) == Insertions(w, t) + (if ev == TakeReady(t) && ReadyQueued(w, t) then 1 else 0) + Bit(Perform(w, ev), t)
  {
    var x := w.tasks[t].executor;
    if ev.Wake? && ev.task != t && w.tasks[ev.task].executor == x {
      assert Executors.AddTask(ev.task) != Executors.AddTask(t);
    }
  }

  /** Every insertion of `t` is matched: the insertions made during a run,
      plus the ReadyQueued flag at the start, equal the times the run took
      `t` out of the ready state, plus the flag at the end. */
  lemma {:induction false} InsertionBalance(w: World, evs: seq<Event>, t: TaskRef)
    requires Valid(w) && AllKnown(w, evs) && t in w.tasks
    ensures Insertions(PerformAll(w, evs), t) + Bit(w, t) == Insertions(w, t) + Unreadied(w, evs, t) + Bit(PerformAll(w, evs), t)
    decreases |evs|
  {
    if |evs| > 0 {
      assert evs[0] in evs;
      assert forall ev :: ev in evs[1..] ==> ev in evs;
      StepBalance(w, evs[0], t);
      InsertionBalance(Perform(w, evs[0]), evs[1..], t);
    }
  }

  /** Without a TakeReady of `t`, the run never takes it out of the ready
      state, and it ends ready-queued exactly when it started so or was woken. */
  lemma {:induction false} RunWithoutTake(w: World, evs: seq<Event>, t: TaskRef)
    requires Valid(w) && AllKnown(w, evs) && t in w.tasks
    requires !Occurs(evs, TakeReady(t))
    ensures Unreadied(w, evs, t) == 0
    ensures ReadyQueued(PerformAll(w, evs), t) <==> ReadyQueued(w, t) || Occurs(evs, Wake(t))
    decreases |evs|
  {
    if |evs| > 0 {
      var ev := evs[0];
      assert ev in evs;
      assert forall e :: e in evs[1..] ==> e in evs;
      var w1 := Perform(w, ev);
      RunWithoutTake(w1, evs[1..], t);
    }
  }

  /** Exactly-once insertion: however many wakes of `t`, and whatever else
      happens to any task, as long as nothing takes `t` out of the ready
      state it is inserted at most once, and once exactly when it was not
      ready-queued and was woken. */
  lemma {:induction false} AtMostOneInsertion(w: World, evs: seq<Event>, t: TaskRef)
    requires Valid(w) && AllKnown(w, evs) && t in w.tasks
    requires !Occurs(evs, TakeReady(t))
    ensures Insertions(PerformAll(w, evs), t) <= Insertions(w, t) + 1
    ensures Insertions(PerformAll(w, evs), t) == Insertions(w, t) + (if !ReadyQueued(w, t) && Occurs(evs, Wake(t)) then 1 else 0)
  {
    InsertionBalance(w, evs, t);
    RunWithoutTake(w, evs, t);
  }

  /** `n` wakes of one task in a row. */
  function Wakes(t: TaskRef, n: nat): (evs: seq<Event>)
    ensures |evs| == n
    ensures forall ev :: ev in evs ==> ev == Wake(t)
    decreases n
  {
    if n == 0 then [] else [Wake(t)] + Wakes(t, n - 1)
  }

  /** N wakes of a task that is not ready-queued insert it exactly once;
      of one that is, not at all. */
  lemma {:induction false} RepeatedWakes(w: World, t: TaskRef, n: nat)
    requires Valid(w) && t in w.tasks
    requires n > 0
    ensures AllKnown(w, Wakes(t, n))
    ensures Insertions(PerformAll(w, Wakes(t, n)), t) == Insertions(w, t) + (if ReadyQueued(w, t) then 0 else 1)
  {
    var evs := Wakes(t, n);
    OccursIsMembership(evs, Wake(t));
    OccursIsMembership(evs, TakeReady(t));
    assert evs[0] == Wake(t);
    AtMostOneInsertion(w, evs, t);
  }
}
