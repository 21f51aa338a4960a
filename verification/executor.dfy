/** The executor: a thin host for one installed scheduler, whose only
    operation hands a task to that scheduler.

    The scheduler is a `BaseScheduler` trait object whose implementation is
    not part of this model, so it is seen only through the calls it
    receives: `Scheduler.calls` lists, in order, every trait method invoked
    on it. The tasks passed to `add_task` form the ready queue as far as
    this model can know it (`Added`); no order of removal is assumed. */
module Executors {
  import opened TaskHandle

  /** One call on the `BaseScheduler` trait, with its arguments. */
  datatype SchedCall =
    | Init
    | AddTask(task: TaskRef)
    | RemoveTask(task: TaskRef)
    | PickNextTask
    | PutPrevTask(prev: TaskRef, preempt: bool)
    | TaskTick(current: TaskRef)
    | SetPriority(task: TaskRef, prio: int)

  /** An installed scheduler, observed through the calls it has received. */
  datatype Scheduler = Scheduler(calls: seq<SchedCall>)

  datatype Executor = Executor(readyQueue: Scheduler)

  /** The tasks handed to `add_task` among `calls`, in call order. */
  function Added(calls: seq<SchedCall>): (r: seq<TaskRef>)
    ensures |r| <= |calls|
    ensures forall t :: t in r <==> AddTask(t) in calls
    decreases |calls|
  {
    if |calls| == 0 then []
    else
      var init := calls[..|calls| - 1];
      assert forall c :: c in init ==> c in calls;
      assert forall c :: c in calls ==> c in init || c == calls[|calls| - 1];
      match calls[|calls| - 1]
      case AddTask(t) => Added(init) + [t]
      case _ => Added(init)
  }

  /** `Added` keeps every `add_task` call, once per call: each task appears
      in it as many times as `add_task` was called with it. */
  lemma {:induction false} AddedCounts(calls: seq<SchedCall>, t: TaskRef)
    ensures multiset(Added(calls))[t] == multiset(calls)[AddTask(t)]
    decreases |calls|
  {
    if |calls| > 0 {
      var init := calls[..|calls| - 1];
      assert calls == init + [calls[|calls| - 1]];
      AddedCounts(init, t);
    }
  }

  /** `Executor::new`: installs exactly the scheduler it is given. */
  function New(readyQueue: Scheduler): (e: Executor)
    ensures e.readyQueue == readyQueue
  {
    Executor(readyQueue)
  }

  /** `Executor::wake_task`: one `add_task` with the given handle on the
      installed scheduler, and nothing else. It does not check whether the
      task is already queued. */
  function WakeTask(e: Executor, t: TaskRef): (r: Executor)
    ensures |r.readyQueue.calls| == |e.readyQueue.calls| + 1
    ensures r.readyQueue.calls[..|e.readyQueue.calls|] == e.readyQueue.calls
    ensures multiset(r.readyQueue.calls) == multiset(e.readyQueue.calls) + multiset{AddTask(t)}
    ensures Added(r.readyQueue.calls) == Added(e.readyQueue.calls) + [t]
  {
    var calls := e.readyQueue.calls + [AddTask(t)];
    assert calls[..|calls| - 1] == e.readyQueue.calls;
    Executor(Scheduler(calls))
  }

  /** The call count of one kind of scheduler call. */
  function Count(e: Executor, c: SchedCall): nat {
    multiset(e.readyQueue.calls)[c]
  }

  /** No de-duplication: two wakes of the same task make two `add_task`
      calls, and no other call kind is touched. */
  lemma WakeTwiceAddsTwice(e: Executor, t: TaskRef)
    ensures Count(WakeTask(WakeTask(e, t), t), AddTask(t)) == Count(e, AddTask(t)) + 2
    ensures forall c :: c != AddTask(t) ==> Count(WakeTask(WakeTask(e, t), t), c) == Count(e, c)
    ensures Added(WakeTask(WakeTask(e, t), t).readyQueue.calls) == Added(e.readyQueue.calls) + [t, t]
  {
    var e1 := WakeTask(e, t);
    var e2 := WakeTask(e1, t);
    var m0, m1, m2 := multiset(e.readyQueue.calls), multiset(e1.readyQueue.calls), multiset(e2.readyQueue.calls);
    assert m1 == m0 + multiset{AddTask(t)};
    assert m2 == m1 + multiset{AddTask(t)};
    assert Added(e2.readyQueue.calls) == Added(e1.readyQueue.calls) + [t];
  }

  /** A freshly built executor passes its wakes to the scheduler it was built with. */
  lemma NewThenWake(q: Scheduler, t: TaskRef)
    ensures WakeTask(New(q), t).readyQueue.calls == q.calls + [AddTask(t)]
  {
  }
}
