/** TaskQueue and the activation counters as one thread sees them: the operations whose memory
    accesses the transition system interleaves, each run to its end. */
module TaskQueue {
  import opened TaskGraph
  import opened WorkStealing
  import opened QueueSteps
  import opened Distribution

  class TaskQueue {
    const fTaskList: array<int>
    var head: int
    var tail: int

    ghost predicate Valid()
      reads this
    {
      0 <= tail <= head <= fTaskList.Length
    }

    /** The shared state of the queue. */
    ghost function Word(): Queue
      reads this, fTaskList
    {
      Queue(fTaskList[..], head, tail)
    }

    /** The tasks in the queue, the next one to be stolen first. */
    ghost function Contents(): seq<int>
      requires Valid()
      reads this, fTaskList
    {
      Window(Word())
    }

    constructor Init(size: nat)
      ensures Valid() && fresh(this.fTaskList) && this.fTaskList.Length == size
      ensures head == tail == 0 && Contents() == []
    {
      fTaskList := new int[size](_ => -1);
      head, tail := 0, 0;
    }

    method InitOne()
      modifies this, fTaskList
      ensures Valid() && head == tail == 0 && Contents() == []
      ensures forall i :: 0 <= i < fTaskList.Length ==> fTaskList[i] == -1
    {
      for i := 0 to fTaskList.Length
        invariant forall j :: 0 <= j < i ==> fTaskList[j] == -1
      {
        fTaskList[i] := -1;
      }
      head, tail := 0, 0;
    }

    method PushHead(item: int)
      requires Valid() && head < fTaskList.Length
      modifies this, fTaskList
      ensures Valid() && tail == old(tail) && head == old(head) + 1
      ensures Word() == PushedOn(old(Word()), item) && Contents() == old(Contents()) + [item]
    {
      fTaskList[head] := item;
      head := head + 1;
    }

    /** The owner's end. */
    method PopHead() returns (item: int)
      requires Valid()
      modifies this
      ensures Valid() && (Word(), item) == HeadPopped(old(Word()))
      ensures if old(Contents()) == [] then item == WORK_STEALING_INDEX && Contents() == []
              else old(Contents()) == Contents() + [item]
    {
      if head == tail {
        return WORK_STEALING_INDEX;
      }
      head := head - 1;
      item := fTaskList[head];
    }

    /** The thieves' end. */
    method PopTail() returns (item: int)
      requires Valid()
      modifies this
      ensures Valid() && (Word(), item) == TailPopped(old(Word()))
      ensures if old(Contents()) == [] then item == WORK_STEALING_INDEX && Contents() == []
              else old(Contents()) == [item] + Contents()
    {
      if head == tail {
        return WORK_STEALING_INDEX;
      }
      item := fTaskList[tail];
      tail := tail + 1;
    }

    /** One of the two push loops of InitTaskList. */
    method PushSlice(tasks: array<int>, from: nat, count: nat)
      requires Valid() && tasks != fTaskList && from + count <= tasks.Length && head + count <= fTaskList.Length
      modifies this, fTaskList
      ensures Valid() && tail == old(tail) && head == old(head) + count
      ensures Contents() == old(Contents()) + tasks[from..from + count]
    {
      for index := 0 to count
        invariant Valid() && tail == old(tail) && head == old(head) + index
        invariant tasks[..] == old(tasks[..])
        invariant Contents() == old(Contents()) + tasks[from..from + index]
      {
        PushHead(tasks[from + index]);
      }
    }

    /** Thread `thread` pushes its share of the ready tasks. */
    method InitTaskList(tasks: array<int>, threads: nat, thread: nat)
      requires Valid() && thread < threads && tasks != fTaskList
      requires head + Size(tasks.Length, threads, thread) <= fTaskList.Length
      modifies this, fTaskList
      ensures Valid() && tail == old(tail)
      ensures Contents() == old(Contents()) + Share(old(tasks[..]), threads, thread)
    {
      var slice := tasks.Length / threads;
      SliceBounds(tasks.Length, threads, thread);
      TimesIs(slice, thread);
      TimesIs(slice, threads);
      PushSlice(tasks, thread * slice, slice);
      assert tasks[..] == old(tasks[..]);
      if thread == 0 {
        PushSlice(tasks, threads * slice, tasks.Length - threads * slice);
      }
    }
  }

  /** Queues do not share memory. */
  ghost predicate Separate(queues: seq<TaskQueue>) {
    forall i, j :: 0 <= i < j < |queues| ==> queues[i] != queues[j] && queues[i].fTaskList != queues[j].fTaskList
  }

  ghost predicate AllValid(queues: seq<TaskQueue>)
    reads queues
  {
    Separate(queues) && forall i :: 0 <= i < |queues| ==> queues[i].Valid()
  }

  ghost function Lists(queues: seq<TaskQueue>): set<array<int>>
  {
    set i | 0 <= i < |queues| :: queues[i].fTaskList
  }

  /** GetNextTask: the first non-empty queue gives up its tail.  Task numbers are never 0. */
  method GetNextTask(queues: seq<TaskQueue>) returns (item: int, ghost from: nat)
    requires AllValid(queues)
    requires forall i :: 0 <= i < |queues| ==> WORK_STEALING_INDEX !in queues[i].Contents()
    modifies queues
    ensures AllValid(queues) && from <= |queues|
    ensures forall i :: 0 <= i < from ==> old(queues[i].Contents()) == [] == queues[i].Contents()
    ensures if from < |queues| then item != WORK_STEALING_INDEX && old(queues[from].Contents()) == [item] + queues[from].Contents()
            else item == WORK_STEALING_INDEX
    ensures forall i :: from < i < |queues| ==> queues[i].Contents() == old(queues[i].Contents())
  {
    for i := 0 to |queues|
      invariant AllValid(queues)
      invariant forall j :: 0 <= j < i ==> old(queues[j].Contents()) == [] == queues[j].Contents()
      invariant forall j :: i <= j < |queues| ==> queues[j].Contents() == old(queues[j].Contents())
    {
      var task := queues[i].PopTail();
      if task != WORK_STEALING_INDEX {
        return task, i;
      }
    }
    return WORK_STEALING_INDEX, |queues|;
  }

  ghost predicate AllEmpty(queues: seq<TaskQueue>)
    reads queues
  {
    forall i :: 0 <= i < |queues| ==> queues[i].head == queues[i].tail == 0
  }

  ghost predicate Roomy(queues: seq<TaskQueue>, ready: array<int>) {
    && Separate(queues)
    && forall i :: 0 <= i < |queues| ==> ready != queues[i].fTaskList && ready.Length <= queues[i].fTaskList.Length
  }

  method InitAll(queues: seq<TaskQueue>)
    requires Separate(queues)
    modifies queues, Lists(queues)
    ensures AllValid(queues) && AllEmpty(queues)
  {
    for i := 0 to |queues|
      invariant forall j :: 0 <= j < i ==> queues[j].head == queues[j].tail == 0
    {
      queues[i].InitOne();
    }
  }

  method Dispatch(queues: seq<TaskQueue>, ready: array<int>)
    requires Roomy(queues, ready) && AllEmpty(queues) && |queues| > 0
    modifies queues, Lists(queues)
    ensures AllValid(queues)
    ensures forall i :: 0 <= i < |queues| ==> queues[i].Contents() == Share(old(ready[..]), |queues|, i)
  {
    ghost var tasks := ready[..];
    ghost var shares := seq(|queues|, i requires 0 <= i < |queues| => Share(tasks, |queues|, i));
    for i := 0 to |queues|
      invariant ready[..] == tasks
      invariant forall j :: 0 <= j < |queues| ==> queues[j].Valid()
      invariant forall j :: 0 <= j < i ==> queues[j].Contents() == shares[j]
      invariant forall j :: i <= j < |queues| ==> queues[j].head == queues[j].tail == 0
    {
      SizeBound(ready.Length, |queues|, i);
      label before:
      queues[i].InitTaskList(ready, |queues|, i);
      assert queues[i].Contents() == shares[i];
      assert forall j :: 0 <= j < |queues| && j != i ==> queues[j].Contents() == old@before(queues[j].Contents());
    }
  }

  /** WorkStealingScheduler::InitTaskList.  Thread -1 dispatches the ready tasks over all queues, any
      other thread puts all of them into its own queue. */
  method InitTaskList(queues: seq<TaskQueue>, ready: array<int>, thread: int)
    requires Roomy(queues, ready) && |queues| > 0 && -1 <= thread < |queues|
    modifies queues, Lists(queues)
    ensures AllValid(queues)
    ensures thread == -1 ==> forall i :: 0 <= i < |queues| ==> queues[i].Contents() == Share(old(ready[..]), |queues|, i)
    ensures thread >= 0 ==> forall i :: 0 <= i < |queues| ==>
      queues[i].Contents() == if i == thread then old(ready[..]) else []
  {
    InitAll(queues);
    assert ready[..] == old(ready[..]);
    if thread == -1 {
      Dispatch(queues, ready);
    } else {
      queues[thread].PushSlice(ready, 0, ready.Length);
    }
  }

  // ---------------------------------------------------------------------------------------
  // Activation counters
  // ---------------------------------------------------------------------------------------

  /** What `k` calls of DEC_ATOMIC on a counter with value `n` return, in the order of the calls. */
  function Decrements(n: int, k: nat, returnsNew: bool): (r: seq<int>)
    ensures |r| == k
    decreases k
  {
    if k == 0 then []
    else
      var (value, result) := Xadd(n, -1, returnsNew);
      [result] + Decrements(value, k - 1, returnsNew)
  }

  /** A task initialised with count `n` is released by exactly one activation: the n-th where
      atomic_xadd returns the new value, the (n+1)-th where it returns the old one, so that there a
      task whose `n` inputs each activate it once is never released. */
  lemma {:induction false} ReleasedByOneActivation(n: nat, k: nat, returnsNew: bool, i: nat)
    requires n > 0 && i < k
    ensures Decrements(n, k, returnsNew)[i] == 0 <==> i == if returnsNew then n - 1 else n
  {
    DecrementResult(n, k, returnsNew, i);
  }

  lemma {:induction false} DecrementResult(n: int, k: nat, returnsNew: bool, i: nat)
    requires i < k
    ensures Decrements(n, k, returnsNew)[i] == n - i - if returnsNew then 1 else 0
    decreases k
  {
    if i > 0 {
      DecrementResult(n - 1, k - 1, returnsNew, i - 1);
    }
  }

  /** TaskGraph: the activation counters. */
  class Activations {
    const fTaskList: array<int>
    const returnsNew: bool

    constructor (size: nat, returnsNew: bool)
      ensures this.fTaskList.Length == size && fresh(this.fTaskList) && this.returnsNew == returnsNew
      ensures forall i :: 0 <= i < size ==> this.fTaskList[i] == 0
    {
      fTaskList := new int[size](_ => 0);
      this.returnsNew := returnsNew;
    }

    method InitTask(task: nat, count: int)
      requires task < fTaskList.Length
      modifies fTaskList
      ensures fTaskList[..] == old(fTaskList[..])[task := count]
    {
      fTaskList[task] := count;
    }

    method Decrement(task: nat) returns (result: int)
      requires task < fTaskList.Length
      modifies fTaskList
      ensures fTaskList[..] == old(fTaskList[..])[task := old(fTaskList[task]) - 1]
      ensures result == Decrements(old(fTaskList[task]), 1, returnsNew)[0]
      ensures result == old(fTaskList[task]) - if returnsNew then 1 else 0
    {
      var (value, r) := Xadd(fTaskList[task], -1, returnsNew);
      fTaskList[task] := value;
      result := r;
    }

    /** ActivateOutputTask with a task register: a released task is kept if the register is empty and
        pushed otherwise. */
    method ActivateOutputTask(queue: TaskQueue, task: nat, tasknum: int) returns (tasknum': int)
      requires task < fTaskList.Length && queue.Valid() && queue.head < queue.fTaskList.Length
      requires fTaskList != queue.fTaskList
      modifies fTaskList, queue, queue.fTaskList
      ensures queue.Valid()
      ensures fTaskList[..] == old(fTaskList[..])[task := old(fTaskList[task]) - 1]
      ensures var released := old(fTaskList[task]) == if returnsNew then 1 else 0;
        && tasknum' == (if released && tasknum == WORK_STEALING_INDEX then task else tasknum)
        && queue.Contents() == old(queue.Contents()) + if released && tasknum != WORK_STEALING_INDEX then [task] else []
    {
      tasknum' := tasknum;
      var result := Decrement(task);
      if result == 0 {
        if tasknum == WORK_STEALING_INDEX {
          tasknum' := task;
        } else {
          queue.PushHead(task);
        }
      }
    }

    /** ActivateOutputTask without a task register: a released task is pushed. */
    method ActivateIntoQueue(queue: TaskQueue, task: nat)
      requires task < fTaskList.Length && queue.Valid() && queue.head < queue.fTaskList.Length
      requires fTaskList != queue.fTaskList
      modifies fTaskList, queue, queue.fTaskList
      ensures queue.Valid()
      ensures fTaskList[..] == old(fTaskList[..])[task := old(fTaskList[task]) - 1]
      ensures queue.Contents() == old(queue.Contents())
                                  + if old(fTaskList[task]) == (if returnsNew then 1 else 0) then [task] else []
    {
      var result := Decrement(task);
      if result == 0 {
        queue.PushHead(task);
      }
    }

    /** GetReadyTask: only with an empty register, take the task pushed last. */
    method GetReadyTask(queue: TaskQueue, tasknum: int) returns (tasknum': int)
      requires queue.Valid()
      modifies queue
      ensures queue.Valid()
      ensures if tasknum != WORK_STEALING_INDEX then tasknum' == tasknum && queue.Contents() == old(queue.Contents())
              else if old(queue.Contents()) == [] then tasknum' == WORK_STEALING_INDEX && queue.Contents() == []
              else old(queue.Contents()) == queue.Contents() + [tasknum']
    {
      tasknum' := tasknum;
      if tasknum == WORK_STEALING_INDEX {
        tasknum' := queue.PopHead();
      }
    }

    /** ActivateOneOutputTask: run the released task next, or else the task pushed last. */
    method ActivateOneOutputTask(queue: TaskQueue, task: nat) returns (tasknum': int)
      requires task < fTaskList.Length && queue.Valid() && fTaskList != queue.fTaskList
      modifies fTaskList, queue
      ensures queue.Valid()
      ensures fTaskList[..] == old(fTaskList[..])[task := old(fTaskList[task]) - 1]
      ensures if old(fTaskList[task]) == (if returnsNew then 1 else 0) then
                tasknum' == task && queue.Contents() == old(queue.Contents())
              else if old(queue.Contents()) == [] then tasknum' == WORK_STEALING_INDEX && queue.Contents() == []
              else old(queue.Contents()) == queue.Contents() + [tasknum']
    {
      var result := Decrement(task);
      if result == 0 {
        tasknum' := task;
      } else {
        tasknum' := queue.PopHead();
      }
    }
  }
}
