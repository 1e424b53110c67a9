/** What an uninterrupted worker does next, in every reachable state. */
module HandOver {
  import opened Sequences
  import opened TaskGraph
  import opened Distribution
  import opened WorkStealing
  import opened WorkStealingInvariant
  import opened WorkStealingTheorems
  import opened QueueSteps
  import opened ActivationSteps

  /** No successor of a task that has activated nothing yet was ever pushed. */
  lemma NotPushedYet(c: Config, s: State, h: History, w: nat, t: int, x: int)
    requires Shape(c, s, h) && Places(c, s, h) && Edges(c, s, h) && Workers(c, s, h) && Resetting(c, s, h) && Prefixes(c, s, h)
    requires w < c.threads && s.workers[w].pc == Act(t, 0, Begin) && 0 <= x < s.queues[w].head
    ensures Fresh(s, h, w) && c.g.IsTask(t) && c.g.IsTask(s.queues[w].slots[x]) && s.queues[w].slots[x] !in c.g.succ[t]
  {
    assert WorkerOk(c, s, w);
    assert At(c, s, Busy(w), t);
    var u := s.queues[w].slots[x];
    assert Fresh(s, h, w);
    assert WasPushed(c, h, u);
    forall j | 0 <= j < |c.g.succ[t]| ensures c.g.succ[t][j] != u {
      assert !Fired(c, s, h, t, j);
    }
  }

  lemma RoomForSuccessors(c: Config, s: State, h: History, w: nat, t: int)
    requires Shape(c, s, h) && Places(c, s, h) && Edges(c, s, h) && Workers(c, s, h) && Resetting(c, s, h) && Prefixes(c, s, h)
    requires w < c.threads && s.workers[w].pc == Act(t, 0, Begin) && c.g.IsTask(t)
    ensures s.queues[w].head + |c.g.succ[t]| < |s.queues[w].slots|
  {
    var q := s.queues[w];
    forall x | 0 <= x < q.head ensures Fresh(s, h, w) && c.g.IsTask(q.slots[x]) && q.slots[x] !in c.g.succ[t] {
      NotPushedYet(c, s, h, w, t, x);
    }
    forall x, y | 0 <= x < y < q.head ensures q.slots[x] != q.slots[y] {
      NotPushedYet(c, s, h, w, t, x);
    }
    SuccessorsFit(c.g, q, t);
  }

  lemma SuccessorsFit(g: Graph, q: Queue, t: int)
    requires g.Valid() && g.IsTask(t) && 0 <= q.head <= |q.slots| == |g.succ|
    requires forall x :: 0 <= x < q.head ==> g.IsTask(q.slots[x]) && q.slots[x] !in g.succ[t]
    requires forall x, y :: 0 <= x < y < q.head ==> q.slots[x] != q.slots[y]
    ensures q.head + |g.succ[t]| < |q.slots|
  {
    var all := q.slots[..q.head] + g.succ[t];
    forall x | 0 <= x < |all| ensures 1 <= all[x] < |g.succ| {
      if x >= q.head {
        assert g.IsTask(g.succ[t][x - q.head]);
      }
    }
    DistinctBound(all, 1, |g.succ|);
  }

  lemma OneMore(c: Config, schedule: seq<nat>, w: nat, s: State, s': State)
    requires c.Valid() && IsSchedule(c, schedule) && w < c.threads && s == Execute(c, schedule) && s' == Step(c, s, w)
    ensures IsSchedule(c, schedule + [w]) && s' == Execute(c, schedule + [w])
  {
    ExecuteSnoc(c, schedule, w);
  }

  lemma MoreOf(schedule: seq<nat>, w: nat, n: nat)
    ensures schedule + seq(0, _ => w) == schedule
    ensures schedule + seq(n + 1, _ => w) == (schedule + seq(n, _ => w)) + [w]
  {
  }

  /** A run of one worker alone is part of a run of the program. */
  lemma {:induction false} LeadsTo(c: Config, schedule: seq<nat>, s: State, w: nat, run: seq<State>, s': State)
      returns (all: seq<nat>)
    requires c.Valid() && IsSchedule(c, schedule) && w < c.threads && s == Execute(c, schedule) && Leads(c, s, w, run, s')
    ensures all == schedule + seq(|run| - 1, _ => w) && IsSchedule(c, all) && s' == Execute(c, all)
    decreases |run|
  {
    if |run| == 1 {
      all := schedule;
      MoreOf(schedule, w, 0);
    } else {
      var before, s1 := Before(c, s, w, run, s');
      all := LeadsTo(c, schedule, s, w, before, s1);
      OneMore(c, all, w, s1, s');
      MoreOf(schedule, w, |run| - 2);
      all := all + [w];
    }
  }

  /** After a task an uninterrupted worker goes on with the first successor that waited for this task alone, and
      queues all others that have become ready; if there is no such successor, it goes on with the first one that has
      become ready and queues the others; if none has, it takes the task that it queued last, or nothing if its queue
      is empty.  Exactly the counters of the successors with several inputs go down by one. */
  lemma AfterTask(c: Config, schedule: seq<nat>, w: nat, t: int) returns (n: nat)
    requires c.Valid() && IsSchedule(c, schedule) && w < c.threads
    requires Execute(c, schedule).workers[w].pc == Act(t, 0, Begin)
    ensures IsSchedule(c, schedule + seq(n, _ => w)) && c.g.IsTask(t)
    ensures var s, s' := Execute(c, schedule), Execute(c, schedule + seq(n, _ => w));
      && Ready(c, s, w) && Ready(c, s', w) && Proper(s.queues[w]) && Proper(s'.queues[w])
      && s'.workers == s.workers[w := Worker(s'.workers[w].tasknum, Top)]
      && s'.queues == s.queues[w := s'.queues[w]]
      && Counted(c, c.g.succ[t], s.counters, s'.counters)
      && Chooses(c, t, s.counters, Window(s.queues[w]), s'.workers[w].tasknum, Window(s'.queues[w]))
  {
    var s := Execute(c, schedule);
    var h := ReachableInv(c, schedule);
    assert WorkerOk(c, s, w);
    RoomForSuccessors(c, s, h, w, t);
    var run, s', tasknum', window', counters' := WholeCode(c, s, w, t);
    n := |run| - 1;
    var all := LeadsTo(c, schedule, s, w, run, s');
  }

  /** At the start every queue holds the share of its thread, and no task is anywhere else. */
  lemma StartWindows(c: Config, q: nat)
    requires c.Valid() && q < c.threads
    ensures var s := InitialState(c);
      && |s.queues| == |s.workers| == c.threads && s.workers[q] == Worker(WORK_STEALING_INDEX, Top) && s.index == 0
      && Proper(s.queues[q]) && Window(s.queues[q]) == Share(c.g.ready, c.threads, q)
      && |s.counters| == |c.g.succ| && forall t :: 0 <= t < |s.counters| ==> s.counters[t] == |c.g.pred[t]|
  {
  }

  /** GetNextTask, uninterrupted, from queue `i` on: the first queue that is not empty gives up the task pushed first. */
  lemma {:induction false} StealAlone(c: Config, s: State, w: nat, i: nat) returns (run: seq<State>, s': State, from: nat)
    requires Ready(c, s, w) && i <= c.threads && s.workers[w] == Worker(WORK_STEALING_INDEX, StealSnap(i))
    requires forall q :: 0 <= q < c.threads ==> Proper(s.queues[q])
    ensures Leads(c, s, w, run, s') && Ready(c, s', w)
    ensures i <= from <= c.threads && forall q :: i <= q < from ==> Window(s.queues[q]) == []
    ensures s'.counters == s.counters && s'.workers == s.workers[w := Worker(s'.workers[w].tasknum, Top)]
    ensures if from == c.threads then s'.queues == s.queues && s'.workers[w].tasknum == WORK_STEALING_INDEX
            else
              && s'.queues == s.queues[from := s'.queues[from]] && Proper(s'.queues[from])
              && Window(s.queues[from]) == [s'.workers[w].tasknum] + Window(s'.queues[from])
    decreases c.threads - i
  {
    if i == c.threads {
      run, s' := Move(c, s, w);
      from := i;
    } else {
      run, s' := PopTailAlone(c, s, w, i);
      from := i;
      if Window(s.queues[i]) == [] {
        var run1, s1 := run, s';
        assert s1.queues == s.queues;
        var run2;
        run2, s', from := StealAlone(c, s1, w, i + 1);
        run := Then(c, s, w, run1, s1, run2, s');
      }
    }
  }
}
