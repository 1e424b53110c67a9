/** The work-stealing scheduler as a transition system.  Every worker thread runs the generated
    `computeThread` loop against the shared queues and activation counters; one call of `Step`
    is at most one access by one worker to memory that another worker may change meanwhile, so that a
    schedule, a sequence of worker numbers, is one interleaving of the whole program.  (The end task
    reads, writes and reads the index in one step, since nobody else writes it.) */
module WorkStealing {
  import opened Sequences
  import opened TaskGraph
  import opened Distribution

  /** The shared state of one TaskQueue: the task slots and the two halves of the counter word. */
  datatype Queue = Queue(slots: seq<int>, head: int, tail: int)

  /** The 32-bit word that CAS compares: two 16-bit halves. */
  function Pack(head: int, tail: int): int {
    head % 0x1_0000 + 0x1_0000 * (tail % 0x1_0000)
  }

  /** Position inside one action of the activation code. */
  datatype Micro =
    | Begin
    | ToPush                     // PushHead called
    | Wrote                      // slot written
    | HeadRead(h: int)           // head read for the increment
    | PopStart                   // PopHead called
    | PopRead(h: int, t: int)    // counter word read
    | PopWon(h: int)             // CAS succeeded, slot h - 1 not read yet

  datatype PC =
    | Top                             // while (fIndex < fFullcount)
    | Switch(idx: int)                // switch (tasknum), for the block at the index read at the loop head
    | Exited
    | Run(task: int, idx: int)        // body of the task, on that block
    | Act(task: int, k: nat, m: Micro) // activation code of the task
    | StealSnap(i: nat)               // PopTail on queue i
    | StealRead(i: nat, h: int, t: int)
    | StealWon(i: nat, pos: int)
    | InitCount(k: nat)               // end task: InitTask for every task with several inputs
    | InitSlots(i: nat, j: nat)       // end task: InitOne on queue i, slot j ...
    | InitCounter(i: nat)             // ... then counter word
    | InitPush(k: nat, m: Micro)      // end task: PushHead of every ready task

  datatype Worker = Worker(tasknum: int, pc: PC)

  /** What the audio code observes: a task body starts or ends on the block at offset `index`. */
  datatype Event = Start(task: int, index: int) | Finish(task: int, index: int)

  /** What the queues transport: a task becomes visible in a queue, or a worker reads it after its CAS. */
  datatype Transfer = Sent(task: int, index: int) | Taken(task: int, index: int)

  datatype State = State(
    queues: seq<Queue>,
    workers: seq<Worker>,
    counters: seq<int>,   // TaskGraph::fTaskList
    index: int,           // fIndex
    log: seq<Event>,
    traffic: seq<Transfer>,
    fault: bool)          // an array was accessed out of bounds

  /** `full` is the number of samples of the buffer, `vec` the number of samples of one cycle; `returnsNew`
      says whether the platform's atomic_xadd returns the new value or the old one. */
  datatype Config = Config(g: Graph, threads: nat, full: int, vec: int, returnsNew: bool)
  {
    ghost predicate Valid() {
      g.Valid() && threads > 0 && vec > 0
    }

    /** What a task waits for: its inputs and, where the old value decides whether a counter has reached
        zero, one more activation that nobody makes. */
    function Needs(t: int): set<int>
      requires 0 <= t < |g.pred|
    {
      if returnsNew || |g.pred[t]| <= 1 then g.pred[t] else g.pred[t] + {NOBODY}
    }

    function AllNeeds(): (r: seq<set<int>>)
      ensures |r| == |g.pred| && forall t :: 0 <= t < |r| ==> r[t] == Needs(t)
    {
      seq(|g.pred|, t requires 0 <= t < |g.pred| => Needs(t))
    }

    /** The task can be released on this platform. */
    predicate Releasable(t: int)
      requires 0 <= t < |g.pred|
    {
      returnsNew || |g.pred[t]| <= 1
    }

    ghost predicate AllReleasable()
      requires g.Valid()
    {
      forall t :: g.IsTask(t) ==> Releasable(t)
    }

    /** Tasks with several inputs, the ones whose counter is initialised in every cycle. */
    function Multi(): (r: seq<int>)
      requires Valid()
      ensures NoDuplicates(r)
      ensures forall t :: t in r <==> g.IsTask(t) && |g.pred[t]| > 1
    {
      MultiBelow(|g.succ|)
    }

    function MultiBelow(n: nat): (r: seq<int>)
      requires Valid() && n <= |g.succ|
      ensures NoDuplicates(r)
      ensures forall t :: t in r <==> g.IsTask(t) && t < n && |g.pred[t]| > 1
    {
      if n <= 1 then []
      else MultiBelow(n - 1) + if |g.pred[n - 1]| > 1 then [n - 1] else []
    }
  }

  function SetWorker(s: State, w: nat, tasknum: int, pc: PC): (s': State)
    requires w < |s.workers|
    ensures |s'.workers| == |s.workers|
  {
    s.(workers := s.workers[w := Worker(tasknum, pc)])
  }

  function Goto(s: State, w: nat, pc: PC): (s': State)
    requires w < |s.workers|
    ensures |s'.workers| == |s.workers|
  {
    SetWorker(s, w, s.workers[w].tasknum, pc)
  }

  function SetQueue(s: State, i: nat, q: Queue): (s': State)
    requires i < |s.queues|
    ensures |s'.workers| == |s.workers|
  {
    s.(queues := s.queues[i := q])
  }

  function Fault(s: State): State {
    s.(fault := true)
  }

  /** fTaskList[Head(fCounter)] = item */
  function WriteSlot(s: State, i: nat, item: int): (s': State)
    requires i < |s.queues|
    ensures |s'.workers| == |s.workers|
  {
    var q := s.queues[i];
    if 0 <= q.head < |q.slots| then SetQueue(s, i, q.(slots := q.slots[q.head := item])) else Fault(s)
  }

  /** IncHead(fCounter) with the value of head read before: the slot becomes visible. */
  function PublishHead(s: State, i: nat, head: int): (s': State)
    requires i < |s.queues|
    ensures |s'.workers| == |s.workers|
  {
    var q := s.queues[i];
    if 0 <= head < |q.slots|
    then SetQueue(s, i, q.(head := head + 1)).(traffic := s.traffic + [Sent(q.slots[head], s.index)])
    else Fault(s)
  }

  /** The value read by a successful pop becomes the worker's next task. */
  function TakeSlot(s: State, w: nat, i: nat, pos: int, next: PC): (s': State)
    requires i < |s.queues| && w < |s.workers|
    ensures |s'.workers| == |s.workers|
  {
    if 0 <= pos < |s.queues[i].slots|
    then SetWorker(s, w, s.queues[i].slots[pos], next).(traffic := s.traffic + [Taken(s.queues[i].slots[pos], s.index)])
    else Fault(s)
  }

  /** What `atomic_xadd` stores and returns: the new value on one platform, the old value on the other. */
  function Xadd(value: int, delta: int, returnsNew: bool): (int, int) {
    (value + delta, if returnsNew then value + delta else value)
  }

  /** DEC_ATOMIC */
  function Decrement(c: Config, s: State, u: int): State
    requires 0 <= u < |s.counters|
  {
    s.(counters := s.counters[u := Xadd(s.counters[u], -1, c.returnsNew).0])
  }

  /** Whether the value that DEC_ATOMIC returns is 0. */
  predicate Releases(c: Config, s: State, u: int)
    requires 0 <= u < |s.counters|
  {
    Xadd(s.counters[u], -1, c.returnsNew).1 == 0
  }

  function NextAction(c: Config, t: int, k: nat): PC
    requires c.Valid() && c.g.IsTask(t)
  {
    if k + 1 < c.g.Length(t) then Act(t, k + 1, Begin) else Top
  }

  /** One step of worker `w`. */
  function Step(c: Config, s: State, w: nat): (s': State)
    requires c.Valid() && w < |s.workers|
    ensures |s'.workers| == |s.workers|
  {
    var wk := s.workers[w];
    if |s.queues| <= w || |s.queues| != c.threads || |s.counters| != |c.g.succ| then Fault(s)
    else match wk.pc
      case Top => Goto(s, w, if s.index < c.full then Switch(s.index) else Exited)
      case Exited => s
      case Switch(idx) => StepSwitch(c, s, w, idx)
      case Run(t, idx) =>
        if c.g.IsTask(t) then Goto(s.(log := s.log + [Finish(t, idx)]), w, Act(t, 0, Begin)) else Fault(s)
      case Act(t, k, m) =>
        if !(c.g.IsTask(t) && k < c.g.Length(t)) then Fault(s)
        else if m.Begin? then StepAction(c, s, w, t, k)
        else if m.ToPush? || m.Wrote? || m.HeadRead? then StepPush(c, s, w, t, k, m)
        else StepPop(c, s, w, t, k, m)
      case StealSnap(_) => StepSteal(c, s, w)
      case StealRead(_, _, _) => StepSteal(c, s, w)
      case StealWon(_, _) => StepSteal(c, s, w)
      case InitCount(_) => StepInit(c, s, w)
      case InitSlots(_, _) => StepInit(c, s, w)
      case InitCounter(_) => StepInit(c, s, w)
      case InitPush(_, _) => StepInit(c, s, w)
  }

  function StepSwitch(c: Config, s: State, w: nat, idx: int): (s': State)
    requires c.Valid() && w < |s.workers|
    ensures |s'.workers| == |s.workers|
  {
    var t := s.workers[w].tasknum;
    if t == WORK_STEALING_INDEX then Goto(s, w, StealSnap(0))
    else if t == LAST_TASK_INDEX then
      var s1 := s.(log := s.log + [Start(t, idx), Finish(t, idx)], index := s.index + c.vec);
      if s1.index < c.full then Goto(s1, w, InitCount(0)) else SetWorker(s1, w, WORK_STEALING_INDEX, Top)
    else Goto(s.(log := s.log + [Start(t, idx)]), w, Run(t, idx))
  }

  /** First step of the `k`-th action after task `t`. */
  function StepAction(c: Config, s: State, w: nat, t: int, k: nat): (s': State)
    requires c.Valid() && w < |s.workers| && c.g.IsTask(t) && k < c.g.Length(t)
    requires |s.counters| == |c.g.succ|
    ensures |s'.workers| == |s.workers|
  {
    var next := NextAction(c, t, k);
    var tasknum := s.workers[w].tasknum;
    match c.g.ActionAt(t, k)
    case Skip => Goto(s, w, next)
    case ResetTask => SetWorker(s, w, WORK_STEALING_INDEX, next)
    case SetTask(u) => SetWorker(s, w, u, next)
    case Push(u) => Goto(s, w, Act(t, k, ToPush))
    case GetReady => if tasknum == WORK_STEALING_INDEX then Goto(s, w, Act(t, k, PopStart)) else Goto(s, w, next)
    case ActivateOne(u) =>
      if !c.g.IsTask(u) then Fault(s)
      else if Releases(c, s, u) then SetWorker(Decrement(c, s, u), w, u, next)
      else Goto(Decrement(c, s, u), w, Act(t, k, PopStart))
    case Activate1(u) =>
      if !c.g.IsTask(u) then Fault(s)
      else if !Releases(c, s, u) then Goto(Decrement(c, s, u), w, next)
      else if tasknum == WORK_STEALING_INDEX then SetWorker(Decrement(c, s, u), w, u, next)
      else Goto(Decrement(c, s, u), w, Act(t, k, ToPush))
    case Activate2(u) =>
      if !c.g.IsTask(u) then Fault(s)
      else if !Releases(c, s, u) then Goto(Decrement(c, s, u), w, next)
      else Goto(Decrement(c, s, u), w, Act(t, k, ToPush))
  }

  /** The item that the `k`-th action after task `t` pushes, if it pushes one. */
  function Pushed(c: Config, t: int, k: nat): int
    requires c.Valid() && c.g.IsTask(t) && k < c.g.Length(t)
  {
    var a := c.g.ActionAt(t, k);
    if a.Push? || a.Activate1? || a.Activate2? then a.u else 0
  }

  /** PushHead on the worker's own queue. */
  function StepPush(c: Config, s: State, w: nat, t: int, k: nat, m: Micro): (s': State)
    requires c.Valid() && w < |s.workers| && w < |s.queues| && c.g.IsTask(t) && k < c.g.Length(t)
    requires m.ToPush? || m.Wrote? || m.HeadRead?
    ensures |s'.workers| == |s.workers|
  {
    match m
    case ToPush => Goto(WriteSlot(s, w, Pushed(c, t, k)), w, Act(t, k, Wrote))
    case Wrote => Goto(s, w, Act(t, k, HeadRead(s.queues[w].head)))
    case HeadRead(h) => Goto(PublishHead(s, w, h), w, NextAction(c, t, k))
  }

  /** PopHead on the worker's own queue. */
  function StepPop(c: Config, s: State, w: nat, t: int, k: nat, m: Micro): (s': State)
    requires c.Valid() && w < |s.workers| && w < |s.queues| && c.g.IsTask(t) && k < c.g.Length(t)
    requires m.PopStart? || m.PopRead? || m.PopWon?
    ensures |s'.workers| == |s.workers|
  {
    var q := s.queues[w];
    match m
    case PopStart =>
      if q.head == q.tail then SetWorker(s, w, WORK_STEALING_INDEX, NextAction(c, t, k))
      else Goto(s, w, Act(t, k, PopRead(q.head, q.tail)))
    case PopRead(h, tl) =>
      if Pack(h, tl) == Pack(q.head, q.tail)
      then Goto(SetQueue(s, w, q.(head := h - 1, tail := tl)), w, Act(t, k, PopWon(h)))
      else Goto(s, w, Act(t, k, PopStart))
    case PopWon(h) => TakeSlot(s, w, w, h - 1, NextAction(c, t, k))
  }

  /** GetNextTask: PopTail on every queue in turn. */
  function StepSteal(c: Config, s: State, w: nat): (s': State)
    requires w < |s.workers| && |s.queues| == c.threads
    requires s.workers[w].pc.StealSnap? || s.workers[w].pc.StealRead? || s.workers[w].pc.StealWon?
    ensures |s'.workers| == |s.workers|
  {
    match s.workers[w].pc
    case StealSnap(i) =>
      if c.threads <= i then SetWorker(s, w, WORK_STEALING_INDEX, Top)
      else
        var q := s.queues[i];
        if q.head == q.tail then Goto(s, w, StealSnap(i + 1)) else Goto(s, w, StealRead(i, q.head, q.tail))
    case StealRead(i, h, tl) =>
      if c.threads <= i then Fault(s)
      else
        var q := s.queues[i];
        if Pack(h, tl) == Pack(q.head, q.tail)
        then Goto(SetQueue(s, i, q.(head := h, tail := tl + 1)), w, StealWon(i, tl))
        else Goto(s, w, StealSnap(i))
    case StealWon(i, pos) =>
      if c.threads <= i then Fault(s) else TakeSlot(s, w, i, pos, Top)
  }

  /** The end task: reset the counters and all queues, push the ready tasks on the own queue. */
  function StepInit(c: Config, s: State, w: nat): (s': State)
    requires c.Valid() && w < |s.workers| && w < |s.queues| && |s.queues| == c.threads
    requires |s.counters| == |c.g.succ|
    requires s.workers[w].pc.InitCount? || s.workers[w].pc.InitSlots? || s.workers[w].pc.InitCounter? || s.workers[w].pc.InitPush?
    ensures |s'.workers| == |s.workers|
  {
    match s.workers[w].pc
    case InitCount(k) =>
      if |c.Multi()| <= k then Goto(s, w, InitSlots(0, 0))
      else
        var t := c.Multi()[k];
        assert t in c.Multi();
        Goto(s.(counters := s.counters[t := |c.g.pred[t]|]), w, InitCount(k + 1))
    case InitSlots(i, j) =>
      if c.threads <= i then Goto(s, w, InitPush(0, Begin))
      else if |s.queues[i].slots| <= j then Goto(s, w, InitCounter(i))
      else Goto(SetQueue(s, i, s.queues[i].(slots := s.queues[i].slots[j := -1])), w, InitSlots(i, j + 1))
    case InitCounter(i) =>
      if c.threads <= i then Fault(s)
      else Goto(SetQueue(s, i, s.queues[i].(head := 0, tail := 0)), w, InitSlots(i + 1, 0))
    case InitPush(k, m) =>
      if |c.g.ready| <= k then SetWorker(s, w, WORK_STEALING_INDEX, Top)
      else match m
        case Wrote => Goto(s, w, InitPush(k, HeadRead(s.queues[w].head)))
        case HeadRead(h) => Goto(PublishHead(s, w, h), w, InitPush(k + 1, Begin))
        case _ => Goto(WriteSlot(s, w, c.g.ready[k]), w, InitPush(k, Wrote))
  }

  /** The state in which `compute` signals the workers: counters set to the in-degrees, ready
      tasks dispatched over all queues. */
  function InitialState(c: Config): State
    requires c.Valid()
  {
    State(
      seq(c.threads, i requires 0 <= i < c.threads => InitialQueue(c, i)),
      seq(c.threads, _ => Worker(WORK_STEALING_INDEX, Top)),
      seq(|c.g.succ|, t requires 0 <= t < |c.g.succ| => |c.g.pred[t]|),
      0, [], seq(|c.g.ready|, k requires 0 <= k < |c.g.ready| => Sent(c.g.ready[k], 0)), false)
  }

  function InitialQueue(c: Config, i: nat): Queue
    requires c.Valid() && i < c.threads
  {
    var share := Share(c.g.ready, c.threads, i);
    Queue(share + seq(if |share| < |c.g.succ| then |c.g.succ| - |share| else 0, _ => -1), |share|, 0)
  }

  /** A schedule names the worker that moves at every step. */
  ghost predicate IsSchedule(c: Config, schedule: seq<nat>) {
    forall i :: 0 <= i < |schedule| ==> schedule[i] < c.threads
  }

  function Execute(c: Config, schedule: seq<nat>): (s: State)
    requires c.Valid() && IsSchedule(c, schedule)
    ensures |s.workers| == c.threads
  {
    if schedule == [] then InitialState(c)
    else
      var last := |schedule| - 1;
      Step(c, Execute(c, schedule[..last]), schedule[last])
  }
}
