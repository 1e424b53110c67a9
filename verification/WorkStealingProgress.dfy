/** The scheduler can always go on: from every state that the workers can get into, some continuation completes the
    buffer. */
module WorkStealingProgress {
  import opened TaskGraph
  import opened Distribution
  import opened WorkStealing
  import opened WorkStealingInvariant
  import opened WorkStealingMoves
  import opened WorkStealingCycle
  import opened WorkStealingSafety
  import opened WorkStealingTheorems

  // ---------------------------------------------------------------------------------------
  // One worker alone
  // ---------------------------------------------------------------------------------------

  predicate Idle(s: State, w: nat)
    requires w < |s.workers|
  {
    s.workers[w] == Worker(WORK_STEALING_INDEX, Top)
  }

  /** Some queue from number `i` on holds a task. */
  predicate Work(s: State, i: nat) {
    exists q :: i <= q < |s.queues| && s.queues[q].head != s.queues[q].tail
  }

  /** How far a worker is from its next event, in the loop and while it steals. */
  ghost function LoopRank(c: Config, s: State, w: nat): nat
    requires w < |s.workers|
  {
    var n, wk := c.threads, s.workers[w];
    match wk.pc
    case Top => if wk.tasknum != 0 then 1 else if Work(s, 0) then n + 6 else 0
    case Switch(_) => if wk.tasknum != 0 then 0 else if Work(s, 0) then n + 5 else 2 * n + 8
    case StealWon(_, _) => 2
    case StealRead(i, h, t) =>
      if i < |s.queues| && h == s.queues[i].head && t == s.queues[i].tail then 3 else 2 * n + 8
    case StealSnap(i) => (if Work(s, i) then 4 else n + 7) + if i < n then n - i else 0
    case _ => 0
  }

  function MicroRank(s: State, w: nat, m: Micro): nat
    requires w < |s.queues|
  {
    match m
    case Begin => 9
    case ToPush => 8
    case Wrote => 7
    case HeadRead(_) => 6
    case PopStart => 4
    case PopRead(h, t) => if h == s.queues[w].head && t == s.queues[w].tail then 3 else 5
    case PopWon(_) => 2
  }

  /** The distance to the next event or to idleness, in lexicographic order. */
  ghost function Rank(c: Config, s: State, w: nat): (nat, nat, nat)
    requires c.Valid() && w < |s.workers| && w < |s.queues|
  {
    match s.workers[w].pc
    case InitCount(k) => (5, if k < |c.Multi()| then |c.Multi()| - k else 0, 0)
    case InitSlots(i, j) => (4, if i < c.threads then c.threads - i else 0, if j < |c.g.succ| then 1 + |c.g.succ| - j else 1)
    case InitCounter(i) => (4, if i < c.threads then c.threads - i else 0, 0)
    case InitPush(k, m) => (3, if k < |c.g.ready| then |c.g.ready| - k else 0, MicroRank(s, w, m))
    case Act(t, k, m) => (2, if c.g.IsTask(t) && k < c.g.Length(t) then c.g.Length(t) - k else 0, MicroRank(s, w, m))
    case _ => (1, LoopRank(c, s, w), 0)
  }

  predicate Less(a: (nat, nat, nat), b: (nat, nat, nat)) {
    a.0 < b.0 || (a.0 == b.0 && (a.1 < b.1 || (a.1 == b.1 && a.2 < b.2)))
  }

  /** The step of worker `w` to `s'` shows in the log or brings it nearer. */
  ghost predicate Nearer(c: Config, s: State, s': State, w: nat)
    requires c.Valid() && w < |s.workers| && w < |s.queues|
  {
    || |s'.log| > |s.log|
    || (s'.log == s.log && s'.index == s.index && w < |s'.workers| && w < |s'.queues|
        && Less(Rank(c, s', w), Rank(c, s, w)))
  }

  lemma LoopNearer(c: Config, s: State, h: History, w: nat)
    requires Inv(c, s, h) && w < c.threads && s.index < c.full
    requires s.workers[w].pc.Top? || s.workers[w].pc.Switch? || s.workers[w].pc.Run?
    requires !(Idle(s, w) && !Work(s, 0))
    ensures Nearer(c, s, Step(c, s, w), w)
  {
    assert WorkerOk(c, s, w);
    var s' := Step(c, s, w);
    if s'.log == s.log {
      assert s'.queues == s.queues;
      assert Work(s', 0) <==> Work(s, 0);
    }
  }

  lemma StealNearer(c: Config, s: State, h: History, w: nat)
    requires AtSteal(c, s, h, w)
    ensures Nearer(c, s, Step(c, s, w), w)
  {
    assert WorkerOk(c, s, w);
    var s', pc := Step(c, s, w), s.workers[w].pc;
    if pc.StealRead? {
      PackInjective(pc.h, pc.t, s.queues[pc.i].head, s.queues[pc.i].tail);
    } else if pc.StealSnap? {
      assert s'.queues == s.queues;
      assert Work(s', 0) <==> Work(s, 0);
      assert Work(s', pc.i) <==> Work(s, pc.i);
      if pc.i < c.threads && s.queues[pc.i].head == s.queues[pc.i].tail {
        assert Work(s, pc.i) ==> Work(s', pc.i + 1);
        assert Work(s', pc.i + 1) ==> Work(s, pc.i);
      }
    }
  }

  lemma ActionRank(c: Config, s: State, w: nat, s': State)
    requires c.Valid() && |s.workers| == |s.queues| == c.threads && |s.counters| == |c.g.succ| && w < c.threads
    requires IsAct(c, s.workers[w].pc) && s.workers[w].pc.m.Begin?
    requires s' == StepAction(c, s, w, s.workers[w].pc.task, s.workers[w].pc.k) && !s'.fault
    ensures Nearer(c, s, s', w)
  {
    ActionGoes(c, s, w, s.workers[w].pc.task, s.workers[w].pc.k);
  }

  /** An action ends or goes into a push or a pop. */
  lemma ActionGoes(c: Config, s: State, w: nat, t: int, k: nat)
    requires c.Valid() && w < |s.workers| && c.g.IsTask(t) && k < c.g.Length(t) && |s.counters| == |c.g.succ|
    ensures var s' := StepAction(c, s, w, t, k);
      && s'.queues == s.queues && s'.log == s.log && s'.index == s.index
      && (s'.fault || s'.workers[w].pc in {NextAction(c, t, k), Act(t, k, ToPush), Act(t, k, PopStart)})
  {
  }

  lemma ActionNearer(c: Config, s: State, h: History, w: nat)
    requires Inv(c, s, h) && w < c.threads && s.workers[w].pc.Act? && s.workers[w].pc.m.Begin?
    ensures Nearer(c, s, Step(c, s, w), w)
  {
    assert WorkerOk(c, s, w);
    assert !Step(c, s, w).fault by { var h' := StepKeepsInv(c, s, h, w); }
    ActionRank(c, s, w, Step(c, s, w));
  }

  lemma PushRank(c: Config, s: State, w: nat, s': State)
    requires c.Valid() && |s.workers| == |s.queues| == c.threads && w < c.threads && IsAct(c, s.workers[w].pc)
    requires var m := s.workers[w].pc.m; m.ToPush? || m.Wrote? || m.HeadRead?
    requires s' == StepPush(c, s, w, s.workers[w].pc.task, s.workers[w].pc.k, s.workers[w].pc.m) && !s'.fault
    ensures Nearer(c, s, s', w)
  {
  }

  lemma PushNearer(c: Config, s: State, h: History, w: nat)
    requires AtPush(c, s, h, w)
    ensures Nearer(c, s, Step(c, s, w), w)
  {
    assert WorkerOk(c, s, w);
    assert !Step(c, s, w).fault by { var h' := StepKeepsInv(c, s, h, w); }
    PushRank(c, s, w, Step(c, s, w));
  }

  lemma PopNearer(c: Config, s: State, h: History, w: nat)
    requires AtPop(c, s, h, w)
    ensures Nearer(c, s, Step(c, s, w), w)
  {
    PopFacts(c, s, h, w);
    PopShape(c, s, w);
    PopRank(c, s, w, Step(c, s, w));
  }

  lemma PopRank(c: Config, s: State, w: nat, s': State)
    requires c.Valid() && |s.workers| == |s.queues| == c.threads && w < c.threads && IsAct(c, s.workers[w].pc)
    requires PopTo(s, w, s')
    ensures Nearer(c, s, s', w)
  {
  }

  lemma InitRank(c: Config, s: State, w: nat, s': State)
    requires c.Valid() && |s.workers| == |s.queues| == c.threads && |s.counters| == |c.g.succ| && w < c.threads
    requires IsInit(s.workers[w].pc) && s' == StepInit(c, s, w) && !s'.fault
    requires s.workers[w].pc.InitPush? ==> var m := s.workers[w].pc.m; m.Begin? || m.Wrote? || m.HeadRead?
    requires forall q :: 0 <= q < |s.queues| ==> |s.queues[q].slots| == |c.g.succ|
    ensures Nearer(c, s, s', w)
  {
  }

  lemma InitNearer(c: Config, s: State, h: History, w: nat)
    requires Inv(c, s, h) && w < c.threads && IsInit(s.workers[w].pc)
    ensures Nearer(c, s, Step(c, s, w), w)
  {
    assert WorkerOk(c, s, w);
    assert !Step(c, s, w).fault by { var h' := StepKeepsInv(c, s, h, w); }
    InitRank(c, s, w, Step(c, s, w));
  }

  /** A worker that is neither gone nor idle with nothing to steal gets nearer to its next event. */
  lemma StepNearer(c: Config, s: State, h: History, w: nat)
    requires Inv(c, s, h) && w < c.threads && s.index < c.full && !s.workers[w].pc.Exited?
    requires !(Idle(s, w) && !Work(s, 0))
    ensures Nearer(c, s, Step(c, s, w), w)
  {
    var pc := s.workers[w].pc;
    if IsInit(pc) {
      InitNearer(c, s, h, w);
    } else if pc.StealSnap? || pc.StealRead? || pc.StealWon? {
      StealNearer(c, s, h, w);
    } else if pc.Act? {
      if pc.m.Begin? {
        ActionNearer(c, s, h, w);
      } else if pc.m.ToPush? || pc.m.Wrote? || pc.m.HeadRead? {
        PushNearer(c, s, h, w);
      } else {
        PopNearer(c, s, h, w);
      }
    } else {
      LoopNearer(c, s, h, w);
    }
  }

  // ---------------------------------------------------------------------------------------
  // One worker after the other
  // ---------------------------------------------------------------------------------------

  /** Nothing new in the log. */
  predicate Silent(s: State, s': State) {
    s'.log == s.log && s'.index == s.index
  }

  /** Nothing shows, worker `w` is idle, there is nothing to steal, and the other workers have not moved. */
  ghost predicate RunsIdle(s: State, s': State, w: nat) {
    && Silent(s, s') && w < |s'.workers| == |s.workers| && Idle(s', w) && !Work(s', 0)
    && forall v :: 0 <= v < |s.workers| && v != w ==> s'.workers[v] == s.workers[v]
  }

  lemma OneStep(c: Config, schedule: seq<nat>, w: nat)
    requires c.Valid() && IsSchedule(c, schedule) && w < c.threads
    requires var s := Execute(c, schedule); s.index < c.full && !(Idle(s, w) && !Work(s, 0))
    ensures IsSchedule(c, schedule + [w])
    ensures var s, s' := Execute(c, schedule), Execute(c, schedule + [w]);
      && |s.queues| == |s'.queues| == c.threads
      && Nearer(c, s, s', w)
      && forall v :: 0 <= v < c.threads && v != w ==> s'.workers[v] == s.workers[v]
  {
    var h := ReachableInv(c, schedule);
    var h' := ReachableInv(c, schedule + [w]);
    var s := Execute(c, schedule);
    ExecuteSnoc(c, schedule, w);
    if s.workers[w].pc.Exited? {
      ExitedMeansComplete(c, schedule, w);
    }
    StepNearer(c, s, h, w);
    StepOnlyOwn(c, s, w);
  }

  lemma Reassociate(schedule: seq<nat>, w: nat, rest: seq<nat>)
    ensures schedule + ([w] + rest) == schedule + [w] + rest
  {
  }

  /** A worker that runs alone makes an event or becomes idle with nothing to steal. */
  lemma {:induction false} RunAlone(c: Config, schedule: seq<nat>, w: nat) returns (more: seq<nat>)
    requires c.Valid() && IsSchedule(c, schedule) && w < c.threads && Execute(c, schedule).index < c.full
    ensures IsSchedule(c, schedule + more)
    ensures var s, s' := Execute(c, schedule), Execute(c, schedule + more);
      |s'.log| > |s.log| || RunsIdle(s, s', w)
    decreases RankOf(c, schedule, w).0, RankOf(c, schedule, w).1, RankOf(c, schedule, w).2
  {
    var s := Execute(c, schedule);
    if Idle(s, w) && !Work(s, 0) {
      more := [];
      assert schedule + more == schedule;
    } else {
      OneStep(c, schedule, w);
      var s1 := Execute(c, schedule + [w]);
      if |s1.log| > |s.log| {
        more := [w];
      } else {
        var rest := RunAlone(c, schedule + [w], w);
        more := [w] + rest;
        Reassociate(schedule, w, rest);
      }
    }
  }

  ghost function RankOf(c: Config, schedule: seq<nat>, w: nat): (nat, nat, nat)
    requires c.Valid() && IsSchedule(c, schedule) && w < c.threads
  {
    var s := Execute(c, schedule);
    if w < |s.queues| then Rank(c, s, w) else (0, 0, 0)
  }

  /** Nothing shows, and the first `n` workers have become idle with nothing to steal. */
  ghost predicate AllIdle(s: State, s': State, n: nat) {
    && Silent(s, s') && n <= |s'.workers| && (forall v :: 0 <= v < n ==> Idle(s', v)) && (n > 0 ==> !Work(s', 0))
  }

  lemma ThenIdle(s: State, s1: State, s2: State, n: nat)
    requires 0 < n && AllIdle(s, s1, n - 1) && (|s2.log| > |s1.log| || RunsIdle(s1, s2, n - 1))
    ensures |s2.log| > |s.log| || AllIdle(s, s2, n)
  {
    if RunsIdle(s1, s2, n - 1) {
      forall v | 0 <= v < n ensures Idle(s2, v) {
        assert v < n - 1 ==> Idle(s1, v);
      }
    }
  }

  lemma Concat(c: Config, schedule: seq<nat>, first: seq<nat>, second: seq<nat>)
    requires c.Valid() && IsSchedule(c, schedule + first + second)
    ensures IsSchedule(c, schedule + (first + second))
    ensures Execute(c, schedule + (first + second)) == Execute(c, schedule + first + second)
  {
    assert schedule + (first + second) == schedule + first + second;
  }

  /** The first workers are idle, now the next one runs. */
  lemma ThenRun(c: Config, schedule: seq<nat>, first: seq<nat>, n: nat) returns (more: seq<nat>)
    requires c.Valid() && IsSchedule(c, schedule) && IsSchedule(c, schedule + first) && 0 < n <= c.threads
    requires Execute(c, schedule).index < c.full
    requires AllIdle(Execute(c, schedule), Execute(c, schedule + first), n - 1)
    ensures IsSchedule(c, schedule + more)
    ensures |Execute(c, schedule + more).log| > |Execute(c, schedule).log|
         || AllIdle(Execute(c, schedule), Execute(c, schedule + more), n)
  {
    var second := RunAlone(c, schedule + first, n - 1);
    more := first + second;
    Concat(c, schedule, first, second);
    ThenIdle(Execute(c, schedule), Execute(c, schedule + first), Execute(c, schedule + first + second), n);
  }

  /** Let workers 0 to n - 1 run alone, one after the other. */
  lemma {:induction false} RunAll(c: Config, schedule: seq<nat>, n: nat) returns (more: seq<nat>)
    requires c.Valid() && IsSchedule(c, schedule) && n <= c.threads && Execute(c, schedule).index < c.full
    ensures IsSchedule(c, schedule + more)
    ensures |Execute(c, schedule + more).log| > |Execute(c, schedule).log|
         || AllIdle(Execute(c, schedule), Execute(c, schedule + more), n)
    decreases n
  {
    if n == 0 {
      more := [];
      assert schedule + more == schedule;
    } else {
      more := RunAll(c, schedule, n - 1);
      if AllIdle(Execute(c, schedule), Execute(c, schedule + more), n - 1) {
        more := ThenRun(c, schedule, more, n);
      }
    }
  }

  /** With all workers idle and all queues empty there is no task anywhere. */
  lemma NothingAnywhere(c: Config, s: State, pl: Place, t: int)
    requires c.Valid() && (forall v :: 0 <= v < |s.workers| ==> Idle(s, v)) && !Work(s, 0)
    requires forall q :: 0 <= q < |s.queues| ==> s.queues[q].tail <= s.queues[q].head
    ensures !At(c, s, pl, t)
  {
    if pl.Slot? && pl.q < |s.queues| {
      assert s.queues[pl.q].head == s.queues[pl.q].tail;
    } else if !pl.Slot? && pl.w < |s.workers| {
      assert Idle(s, pl.w);
    }
  }

  /** As long as the buffer is not complete, the workers can go on until the next event. */
  lemma NextEvent(c: Config, schedule: seq<nat>) returns (more: seq<nat>)
    requires c.Valid() && c.AllReleasable() && IsSchedule(c, schedule) && Execute(c, schedule).index < c.full
    ensures IsSchedule(c, schedule + more)
    ensures |Execute(c, schedule + more).log| > |Execute(c, schedule).log|
  {
    more := RunAll(c, schedule, c.threads);
    var s' := Execute(c, schedule + more);
    if |s'.log| <= |Execute(c, schedule).log| {
      NeverRunsDry(c, schedule + more);
      MemorySafe(c, schedule + more);
      var pl, t :| At(c, s', pl, t);
      NothingAnywhere(c, s', pl, t);
      assert false;
    }
  }

  /** From every state that the workers can get into, some continuation completes the buffer. */
  lemma {:induction false} CanComplete(c: Config, schedule: seq<nat>) returns (more: seq<nat>)
    requires c.Valid() && c.AllReleasable() && IsSchedule(c, schedule)
    ensures IsSchedule(c, schedule + more) && Execute(c, schedule + more).index >= c.full
    decreases WorkLeft(c, schedule)
  {
    if Execute(c, schedule).index >= c.full {
      more := [];
      assert schedule + more == schedule;
    } else {
      var first := NextEvent(c, schedule);
      var next := schedule + first;
      WorkShrinks(c, schedule, next);
      var rest := CanComplete(c, next);
      more := first + rest;
      Concat(c, schedule, first, rest);
    }
  }

  /** The number of events that may still come. */
  ghost function WorkLeft(c: Config, schedule: seq<nat>): nat
    requires c.Valid() && IsSchedule(c, schedule)
  {
    var n := 2 * (c.full * (|c.g.succ| - 1)) - |Execute(c, schedule).log|;
    if n > 0 then n else 0
  }

  lemma WorkShrinks(c: Config, schedule: seq<nat>, schedule': seq<nat>)
    requires c.Valid() && IsSchedule(c, schedule) && IsSchedule(c, schedule')
    requires |Execute(c, schedule').log| > |Execute(c, schedule).log| && Execute(c, schedule).index < c.full
    ensures WorkLeft(c, schedule') < WorkLeft(c, schedule)
  {
    var h := ReachableInv(c, schedule);
    assert c.full <= Offset(c, c.full) by { Monotone(1, c.vec, c.full); }
    BoundedWork(c, schedule', c.full);
  }

  /** Where the old value decides, a task with several inputs is never released, so the buffer never completes. */
  lemma BlockedForever(c: Config, schedule: seq<nat>, u: int)
    requires c.Valid() && IsSchedule(c, schedule) && 0 < c.full && c.g.IsTask(u) && !c.Releasable(u)
    ensures Execute(c, schedule).index < c.full
    ensures forall e :: e in Execute(c, schedule).log ==> e.task != u
  {
    var h := ReachableInv(c, schedule);
    NeedsOf(c, u);
    assert NOBODY in h.pend[u];
    NeverStarts(c, schedule, u);
  }

  lemma {:induction false} NeverStarts(c: Config, schedule: seq<nat>, u: int)
    requires c.Valid() && IsSchedule(c, schedule) && c.g.IsTask(u) && !c.Releasable(u)
    ensures forall e :: e in Execute(c, schedule).log ==> e.task != u
    decreases |schedule|
  {
    if schedule != [] {
      var last := |schedule| - 1;
      NeverStarts(c, schedule[..last], u);
      var h := ReachableInv(c, schedule[..last]);
      NeedsOf(c, u);
      assert NOBODY in h.pend[u];
      EventsArePlaced(c, Execute(c, schedule[..last]), h, schedule[last]);
    }
  }

  /** Only a task in the hands of the worker makes an event. */
  lemma EventsArePlaced(c: Config, s: State, h: History, w: nat)
    requires Inv(c, s, h) && w < c.threads
    ensures forall e :: e in Step(c, s, w).log ==> e in s.log || e.task in h.loc
  {
    if s.workers[w].pc.Switch? && s.workers[w].tasknum != 0 {
      StartFacts(c, s, h, w);
      assert Step(c, s, w) == StepSwitch(c, s, w, s.workers[w].pc.idx);
    } else if s.workers[w].pc.Run? {
      FinishFacts(c, s, h, w);
      assert Step(c, s, w).log == s.log + [Finish(s.workers[w].pc.task, s.workers[w].pc.idx)];
    } else {
      SameLog(c, s, w);
    }
  }

  lemma SameLog(c: Config, s: State, w: nat)
    requires c.Valid() && w < |s.workers| && !s.workers[w].pc.Run?
    requires s.workers[w].pc.Switch? ==> s.workers[w].tasknum == 0
    ensures Step(c, s, w).log == s.log
  {
    if |s.queues| == c.threads && w < |s.queues| && |s.counters| == |c.g.succ| {
      var pc := s.workers[w].pc;
      if pc.Act? && c.g.IsTask(pc.task) && pc.k < c.g.Length(pc.task) {
        if pc.m.Begin? {
          ActionLog(c, s, w, pc.task, pc.k);
        } else if pc.m.ToPush? || pc.m.Wrote? || pc.m.HeadRead? {
          PushLog(c, s, w, pc.task, pc.k, pc.m);
        } else {
          PopLog(c, s, w, pc.task, pc.k, pc.m);
        }
      } else if IsInit(pc) {
        InitLog(c, s, w);
      } else if pc.StealSnap? || pc.StealRead? || pc.StealWon? {
        StealLog(c, s, w);
      }
    }
  }

  lemma ActionLog(c: Config, s: State, w: nat, t: int, k: nat)
    requires c.Valid() && w < |s.workers| && c.g.IsTask(t) && k < c.g.Length(t) && |s.counters| == |c.g.succ|
    ensures StepAction(c, s, w, t, k).log == s.log
  {
  }

  lemma PushLog(c: Config, s: State, w: nat, t: int, k: nat, m: Micro)
    requires c.Valid() && w < |s.workers| && w < |s.queues| && c.g.IsTask(t) && k < c.g.Length(t)
    requires m.ToPush? || m.Wrote? || m.HeadRead?
    ensures StepPush(c, s, w, t, k, m).log == s.log
  {
  }

  lemma PopLog(c: Config, s: State, w: nat, t: int, k: nat, m: Micro)
    requires c.Valid() && w < |s.workers| && w < |s.queues| && c.g.IsTask(t) && k < c.g.Length(t)
    requires m.PopStart? || m.PopRead? || m.PopWon?
    ensures StepPop(c, s, w, t, k, m).log == s.log
  {
  }

  lemma StealLog(c: Config, s: State, w: nat)
    requires w < |s.workers| && |s.queues| == c.threads
    requires s.workers[w].pc.StealSnap? || s.workers[w].pc.StealRead? || s.workers[w].pc.StealWon?
    ensures StepSteal(c, s, w).log == s.log
  {
  }

  lemma InitLog(c: Config, s: State, w: nat)
    requires c.Valid() && w < |s.workers| && w < |s.queues| && |s.queues| == c.threads && |s.counters| == |c.g.succ|
    requires IsInit(s.workers[w].pc)
    ensures StepInit(c, s, w).log == s.log
  {
  }

  /** A buffer can be completed on a platform if and only if it returns the new value or no task has several
      inputs. */
  lemma CompletesIff(c: Config)
    requires c.Valid() && 0 < c.full
    ensures (exists schedule :: IsSchedule(c, schedule) && Execute(c, schedule).index >= c.full) <==> c.AllReleasable()
  {
    if c.AllReleasable() {
      var schedule := CanComplete(c, []);
      assert [] + schedule == schedule;
    } else {
      var u :| c.g.IsTask(u) && !c.Releasable(u);
      forall schedule | IsSchedule(c, schedule) ensures Execute(c, schedule).index < c.full {
        BlockedForever(c, schedule, u);
      }
    }
  }
}
