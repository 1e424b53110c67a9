/** What a worker does after a task when no other worker interrupts it: the activation code as a sequential program on
    its register, its queue and the activation counters. */
module ActivationSteps {
  import opened Sequences
  import opened TaskGraph
  import opened WorkStealing
  import opened QueueSteps

  /** Worker `w` stands at `pc` with `tasknum` in its register, `window` in its queue and these counters; the other
      workers and queues are as in `s0`. */
  ghost predicate Stands(c: Config, s0: State, s: State, w: nat, pc: PC, tasknum: int, window: seq<int>, counters: seq<int>) {
    && Ready(c, s0, w) && Ready(c, s, w)
    && s.workers == s0.workers[w := Worker(tasknum, pc)] && s.counters == counters
    && s.queues == s0.queues[w := s.queues[w]] && Proper(s.queues[w]) && Window(s.queues[w]) == window
    && s.queues[w].tail == s0.queues[w].tail && |s.queues[w].slots| == |s0.queues[w].slots|
  }

  /** Where the activation code goes on after its `k`-th action. */
  function After(c: Config, t: int, k: nat): PC
    requires c.g.IsTask(t)
  {
    if k + 1 < c.g.Length(t) then Act(t, k + 1, Begin) else Top
  }

  /** An empty window gives 0; otherwise the task pushed last leaves the window. */
  ghost predicate Popped(window: seq<int>, window': seq<int>, item: int) {
    if window == [] then item == 0 && window' == [] else window == window' + [item]
  }

  lemma PushStands(c: Config, s0: State, s: State, w: nat, t: int, k: nat, tasknum: int, window: seq<int>, counters: seq<int>)
      returns (run: seq<State>, s': State)
    requires c.Valid() && c.g.IsTask(t) && k < c.g.Length(t)
    requires Stands(c, s0, s, w, Act(t, k, ToPush), tasknum, window, counters)
    requires s.queues[w].head < |s.queues[w].slots|
    ensures Leads(c, s, w, run, s')
    ensures Stands(c, s0, s', w, After(c, t, k), tasknum, window + [Pushed(c, t, k)], counters)
  {
    run, s' := PushHeadAlone(c, s, w, t, k);
  }

  lemma PopStands(c: Config, s0: State, s: State, w: nat, t: int, k: nat, tasknum: int, window: seq<int>, counters: seq<int>)
      returns (run: seq<State>, s': State, item: int, window': seq<int>)
    requires c.Valid() && c.g.IsTask(t) && k < c.g.Length(t)
    requires Stands(c, s0, s, w, Act(t, k, PopStart), tasknum, window, counters)
    ensures Popped(window, window', item)
    ensures Leads(c, s, w, run, s') && Stands(c, s0, s', w, After(c, t, k), item, window', counters)
  {
    run, s' := PopHeadAlone(c, s, w, t, k);
    var r := HeadPopped(s.queues[w]);
    item, window' := r.1, Window(r.0);
  }

  // ---------------------------------------------------------------------------------------
  // One action
  // ---------------------------------------------------------------------------------------

  /** Whether an activation of `u` makes DEC_ATOMIC return 0. */
  predicate LastActivation(c: Config, counters: seq<int>, u: int)
    requires 0 <= u < |counters|
  {
    counters[u] == if c.returnsNew then 1 else 0
  }

  /** getReadyTask: at the end of the code, with nothing kept, the worker pops its own queue; a task that it has
      already stays. */
  lemma GetReadyAlone(c: Config, s0: State, s: State, w: nat, t: int, tasknum: int, window: seq<int>, counters: seq<int>)
      returns (run: seq<State>, s': State, tasknum': int, window': seq<int>)
    requires c.Valid() && c.g.IsTask(t) && c.g.Clears(t)
    requires Stands(c, s0, s, w, Act(t, c.g.Length(t) - 1, Begin), tasknum, window, counters)
    ensures if tasknum == 0 then Popped(window, window', tasknum') else tasknum' == tasknum && window' == window
    ensures Leads(c, s, w, run, s') && Stands(c, s0, s', w, Top, tasknum', window', counters)
  {
    var k := c.g.Length(t) - 1;
    run, s' := Move(c, s, w);
    tasknum', window' := tasknum, window;
    if tasknum == 0 {
      assert Stands(c, s0, s', w, Act(t, k, PopStart), tasknum, window, counters);
      var run1, s1 := run, s';
      var run2;
      run2, s', tasknum', window' := PopStands(c, s0, s1, w, t, k, tasknum, window, counters);
      run := Then(c, s, w, run1, s1, run2, s');
    }
  }

  /** activateOneOutputTask for the only successor of `t`: run it if this was its last input, and otherwise pop. */
  lemma ActivateOneAlone(c: Config, s0: State, s: State, w: nat, t: int, tasknum: int, window: seq<int>, counters: seq<int>)
      returns (run: seq<State>, s': State, tasknum': int, window': seq<int>)
    requires c.Valid() && c.g.IsTask(t) && |c.g.succ[t]| == 1 && |c.g.pred[c.g.succ[t][0]]| > 1
    requires Stands(c, s0, s, w, Act(t, 0, Begin), tasknum, window, counters)
    ensures Leads(c, s, w, run, s')
    ensures var u := c.g.succ[t][0];
      && c.g.IsTask(u) && u < |counters|
      && (if LastActivation(c, counters, u) then tasknum' == u && window' == window else Popped(window, window', tasknum'))
      && Stands(c, s0, s', w, Top, tasknum', window', counters[u := counters[u] - 1])
  {
    var u := c.g.succ[t][0];
    assert c.g.IsTask(u);
    run, s' := Move(c, s, w);
    tasknum', window' := u, window;
    if !LastActivation(c, counters, u) {
      var counters' := counters[u := counters[u] - 1];
      assert Stands(c, s0, s', w, Act(t, 0, PopStart), tasknum, window, counters');
      var run1, s1 := run, s';
      var run2;
      run2, s', tasknum', window' := PopStands(c, s0, s1, w, t, 0, tasknum, window, counters');
      run := Then(c, s, w, run1, s1, run2, s');
    }
  }

  /** The successor that the `k`-th action is about, when `t` has several. */
  ghost predicate AboutSuccessor(c: Config, t: int, k: nat) {
    c.Valid() && c.g.IsTask(t) && |c.g.succ[t]| != 1 && 1 <= k <= |c.g.succ[t]|
  }

  /** A push that starts in the second step. */
  lemma MoveAndPush(c: Config, s0: State, s: State, w: nat, t: int, k: nat, run1: seq<State>, s1: State,
                    tasknum: int, window: seq<int>, counters: seq<int>) returns (run: seq<State>, s': State)
    requires AboutSuccessor(c, t, k) && Leads(c, s, w, run1, s1)
    requires Stands(c, s0, s1, w, Act(t, k, ToPush), tasknum, window, counters)
    requires s1.queues[w].head < |s1.queues[w].slots|
    ensures Leads(c, s, w, run, s')
    ensures Stands(c, s0, s', w, Act(t, k + 1, Begin), tasknum, window + [Pushed(c, t, k)], counters)
  {
    var run2;
    run2, s' := PushStands(c, s0, s1, w, t, k, tasknum, window, counters);
    run := Then(c, s, w, run1, s1, run2, s');
  }

  /** activateOutputTask1, where nothing is kept: the first released successor goes into the empty register, and the
      others into the queue. */
  lemma Activate1Alone(c: Config, s0: State, s: State, w: nat, t: int, k: nat, tasknum: int, window: seq<int>, counters: seq<int>)
      returns (run: seq<State>, s': State)
    requires AboutSuccessor(c, t, k) && c.g.Keep(t) == 0
    requires Stands(c, s0, s, w, Act(t, k, Begin), tasknum, window, counters) && s.queues[w].head < |s.queues[w].slots|
    ensures Leads(c, s, w, run, s')
    ensures var u := c.g.succ[t][k - 1];
      && c.g.IsTask(u) && u < |counters|
      && var released := LastActivation(c, counters, u);
      Stands(c, s0, s', w, Act(t, k + 1, Begin),
             if released && tasknum == 0 then u else tasknum,
             if released && tasknum != 0 then window + [u] else window, counters[u := counters[u] - 1])
  {
    var u := c.g.succ[t][k - 1];
    assert c.g.IsTask(u) && |c.g.pred[u]| > 1;
    run, s' := Move(c, s, w);
    if LastActivation(c, counters, u) && tasknum != 0 {
      run, s' := MoveAndPush(c, s0, s, w, t, k, run, s', tasknum, window, counters[u := counters[u] - 1]);
    }
  }

  /** activateOutputTask2, where a successor is kept: a released one goes into the queue. */
  lemma Activate2Alone(c: Config, s0: State, s: State, w: nat, t: int, k: nat, tasknum: int, window: seq<int>, counters: seq<int>)
      returns (run: seq<State>, s': State)
    requires AboutSuccessor(c, t, k) && c.g.Keep(t) != 0 && |c.g.pred[c.g.succ[t][k - 1]]| > 1
    requires Stands(c, s0, s, w, Act(t, k, Begin), tasknum, window, counters) && s.queues[w].head < |s.queues[w].slots|
    ensures Leads(c, s, w, run, s')
    ensures var u := c.g.succ[t][k - 1];
      && c.g.IsTask(u) && u < |counters|
      && Stands(c, s0, s', w, Act(t, k + 1, Begin), tasknum,
                if LastActivation(c, counters, u) then window + [u] else window, counters[u := counters[u] - 1])
  {
    var u := c.g.succ[t][k - 1];
    assert c.g.IsTask(u);
    run, s' := Move(c, s, w);
    if LastActivation(c, counters, u) {
      run, s' := MoveAndPush(c, s0, s, w, t, k, run, s', tasknum, window, counters[u := counters[u] - 1]);
    }
  }

  /** A successor with a single input is pushed at once, unless it is the kept one. */
  lemma PushAlone(c: Config, s0: State, s: State, w: nat, t: int, k: nat, tasknum: int, window: seq<int>, counters: seq<int>)
      returns (run: seq<State>, s': State)
    requires AboutSuccessor(c, t, k) && c.g.Keep(t) != 0 && |c.g.pred[c.g.succ[t][k - 1]]| == 1
    requires Stands(c, s0, s, w, Act(t, k, Begin), tasknum, window, counters) && s.queues[w].head < |s.queues[w].slots|
    ensures Leads(c, s, w, run, s')
    ensures var u := c.g.succ[t][k - 1];
      Stands(c, s0, s', w, Act(t, k + 1, Begin), tasknum, if u == c.g.Keep(t) then window else window + [u], counters)
  {
    run, s' := Move(c, s, w);
    if c.g.succ[t][k - 1] != c.g.Keep(t) {
      run, s' := MoveAndPush(c, s0, s, w, t, k, run, s', tasknum, window, counters);
    }
  }

  // ---------------------------------------------------------------------------------------
  // The whole code after a task
  // ---------------------------------------------------------------------------------------

  /** Of the first `j` successors of `t`, those that become ready and are not kept, in their order: the ones that wait
      for `t` alone and the ones for which `t` is the last input to finish. */
  function BecomeReady(c: Config, t: int, counters: seq<int>, j: nat): (r: seq<int>)
    requires c.Valid() && c.g.IsTask(t) && |counters| == |c.g.succ| && j <= |c.g.succ[t]|
    ensures |r| <= j
    ensures forall i :: 0 <= i < |r| ==> c.g.IsTask(r[i])
  {
    if j == 0 then []
    else
      var u := c.g.succ[t][j - 1];
      BecomeReady(c, t, counters, j - 1)
      + if u != c.g.Keep(t) && (|c.g.pred[u]| == 1 || LastActivation(c, counters, u)) then [u] else []
  }

  /** Each of these tasks with several inputs has been counted down once, and no other task. */
  ghost predicate Counted(c: Config, tasks: seq<int>, counters: seq<int>, counters': seq<int>)
    requires |c.g.pred| == |c.g.succ| == |counters|
  {
    && |counters'| == |counters|
    && forall u :: 0 <= u < |counters| ==>
      counters'[u] == counters[u] - if u in tasks && |c.g.pred[u]| > 1 then 1 else 0
  }

  function Register(keep: int, tasknum: int, handed: seq<int>): int {
    if keep != 0 then tasknum else if handed == [] then 0 else handed[0]
  }

  function Queued(keep: int, handed: seq<int>): seq<int> {
    if keep != 0 || handed == [] then handed else handed[1..]
  }

  lemma CountNext(c: Config, tasks: seq<int>, u: int, counters: seq<int>, counters': seq<int>)
    requires |c.g.pred| == |c.g.succ| == |counters| && 0 <= u < |counters| && u !in tasks
    requires Counted(c, tasks, counters, counters')
    ensures |c.g.pred[u]| > 1 ==> Counted(c, tasks + [u], counters, counters'[u := counters'[u] - 1])
    ensures |c.g.pred[u]| <= 1 ==> Counted(c, tasks + [u], counters, counters')
    ensures counters'[u] == counters[u]
  {
  }

  /** What NextSuccessor does to register, queue and counters. */
  ghost predicate Dealt(c: Config, t: int, j: nat, tasknum1: int, window1: seq<int>, counters1: seq<int>,
                        tasknum': int, window': seq<int>, counters': seq<int>)
    requires c.Valid() && c.g.IsTask(t) && |counters1| == |c.g.succ| && 1 <= j <= |c.g.succ[t]|
  {
    var u, keep := c.g.succ[t][j - 1], c.g.Keep(t);
    && c.g.IsTask(u)
    && var ready := u != keep && (|c.g.pred[u]| == 1 || LastActivation(c, counters1, u));
    && tasknum' == (if keep == 0 && ready && tasknum1 == 0 then u else tasknum1)
    && window' == (if ready && (keep != 0 || tasknum1 != 0) then window1 + [u] else window1)
    && counters' == (if |c.g.pred[u]| > 1 then counters1[u := counters1[u] - 1] else counters1)
  }

  lemma CountSuccessor(c: Config, t: int, j: nat, counters: seq<int>, counters1: seq<int>)
    requires c.Valid() && c.g.IsTask(t) && 1 <= j <= |c.g.succ[t]| && |counters| == |c.g.succ|
    requires Counted(c, c.g.succ[t][..j - 1], counters, counters1)
    ensures var u := c.g.succ[t][j - 1];
      && c.g.IsTask(u) && counters1[u] == counters[u]
      && Counted(c, c.g.succ[t][..j], counters, if |c.g.pred[u]| > 1 then counters1[u := counters1[u] - 1] else counters1)
  {
    var ss := c.g.succ[t];
    CountNext(c, ss[..j - 1], ss[j - 1], counters, counters1);
    assert ss[..j] == ss[..j - 1] + [ss[j - 1]];
  }

  /** One successor, where nothing is kept. */
  lemma NextUnkept(c: Config, s0: State, s: State, w: nat, t: int, k: nat, tasknum: int, window: seq<int>, counters: seq<int>)
      returns (run: seq<State>, s': State, tasknum': int, window': seq<int>, counters': seq<int>)
    requires AboutSuccessor(c, t, k) && |counters| == |c.g.succ| && c.g.Keep(t) == 0
    requires Stands(c, s0, s, w, Act(t, k, Begin), tasknum, window, counters) && s.queues[w].head < |s.queues[w].slots|
    ensures Dealt(c, t, k, tasknum, window, counters, tasknum', window', counters')
    ensures Leads(c, s, w, run, s') && Stands(c, s0, s', w, Act(t, k + 1, Begin), tasknum', window', counters')
  {
    var u := c.g.succ[t][k - 1];
    assert c.g.IsTask(u);
    var released := LastActivation(c, counters, u);
    counters' := counters[u := counters[u] - 1];
    tasknum' := if released && tasknum == 0 then u else tasknum;
    window' := if released && tasknum != 0 then window + [u] else window;
    run, s' := Activate1Alone(c, s0, s, w, t, k, tasknum, window, counters);
    DealtUnkept(c, t, k, tasknum, window, counters);
  }

  lemma DealtUnkept(c: Config, t: int, k: nat, tasknum: int, window: seq<int>, counters: seq<int>)
    requires AboutSuccessor(c, t, k) && |counters| == |c.g.succ| && c.g.Keep(t) == 0
    ensures var u := c.g.succ[t][k - 1];
      && c.g.IsTask(u)
      && var released := LastActivation(c, counters, u);
      Dealt(c, t, k, tasknum, window, counters, if released && tasknum == 0 then u else tasknum,
            if released && tasknum != 0 then window + [u] else window, counters[u := counters[u] - 1])
  {
  }

  /** One successor, where one is kept. */
  lemma NextKept(c: Config, s0: State, s: State, w: nat, t: int, k: nat, tasknum: int, window: seq<int>, counters: seq<int>)
      returns (run: seq<State>, s': State, tasknum': int, window': seq<int>, counters': seq<int>)
    requires AboutSuccessor(c, t, k) && |counters| == |c.g.succ| && c.g.Keep(t) != 0
    requires Stands(c, s0, s, w, Act(t, k, Begin), tasknum, window, counters) && s.queues[w].head < |s.queues[w].slots|
    ensures Dealt(c, t, k, tasknum, window, counters, tasknum', window', counters')
    ensures Leads(c, s, w, run, s') && Stands(c, s0, s', w, Act(t, k + 1, Begin), tasknum', window', counters')
  {
    var u, keep := c.g.succ[t][k - 1], c.g.Keep(t);
    assert t in c.g.pred[u];
    tasknum', window', counters' := tasknum, window, counters;
    if |c.g.pred[u]| > 1 {
      counters' := counters[u := counters[u] - 1];
      run, s' := Activate2Alone(c, s0, s, w, t, k, tasknum, window, counters);
      if LastActivation(c, counters, u) {
        window' := window + [u];
      }
    } else {
      run, s' := PushAlone(c, s0, s, w, t, k, tasknum, window, counters);
      if u != keep {
        window' := window + [u];
      }
    }
  }

  /** One successor. */
  lemma NextSuccessor(c: Config, s0: State, s: State, w: nat, t: int, k: nat, tasknum: int, window: seq<int>, counters: seq<int>)
      returns (run: seq<State>, s': State, tasknum': int, window': seq<int>, counters': seq<int>)
    requires AboutSuccessor(c, t, k) && |counters| == |c.g.succ|
    requires Stands(c, s0, s, w, Act(t, k, Begin), tasknum, window, counters) && s.queues[w].head < |s.queues[w].slots|
    ensures Dealt(c, t, k, tasknum, window, counters, tasknum', window', counters')
    ensures Leads(c, s, w, run, s') && Stands(c, s0, s', w, Act(t, k + 1, Begin), tasknum', window', counters')
  {
    if c.g.Keep(t) == 0 {
      run, s', tasknum', window', counters' := NextUnkept(c, s0, s, w, t, k, tasknum, window, counters);
    } else {
      run, s', tasknum', window', counters' := NextKept(c, s0, s, w, t, k, tasknum, window, counters);
    }
  }

  /** What one more successor adds to the register and to the queue. */
  lemma HandNext(c: Config, t: int, counters: seq<int>, j: nat, tasknum: int)
    requires c.Valid() && c.g.IsTask(t) && |counters| == |c.g.succ| && 1 <= j <= |c.g.succ[t]|
    requires c.g.Keep(t) == 0 ==> tasknum == 0
    ensures var u, keep := c.g.succ[t][j - 1], c.g.Keep(t);
      && c.g.IsTask(u)
      && var ready := u != keep && (|c.g.pred[u]| == 1 || LastActivation(c, counters, u));
      && var before, now := BecomeReady(c, t, counters, j - 1), BecomeReady(c, t, counters, j);
      && Register(keep, tasknum, now)
         == (if keep == 0 && ready && Register(keep, tasknum, before) == 0 then u else Register(keep, tasknum, before))
      && Queued(keep, now)
         == Queued(keep, before) + (if ready && (keep != 0 || Register(keep, tasknum, before) != 0) then [u] else [])
  {
  }

  /** The register and the queue once `j` successors are dealt with. */
  ghost predicate Handed(c: Config, t: int, j: nat, counters: seq<int>, tasknum: int, window: seq<int>,
                         counters': seq<int>, tasknum': int, window': seq<int>)
    requires c.Valid() && c.g.IsTask(t) && |counters| == |c.g.succ| && j <= |c.g.succ[t]|
  {
    var ready, keep := BecomeReady(c, t, counters, j), c.g.Keep(t);
    && tasknum' == Register(keep, tasknum, ready) && window' == window + Queued(keep, ready)
    && Counted(c, c.g.succ[t][..j], counters, counters')
  }

  lemma HandedNext(c: Config, t: int, j: nat, counters: seq<int>, tasknum: int, window: seq<int>,
                   tasknum1: int, window1: seq<int>, counters1: seq<int>, tasknum': int, window': seq<int>, counters': seq<int>)
    requires c.Valid() && c.g.IsTask(t) && |counters| == |c.g.succ| && 1 <= j <= |c.g.succ[t]|
    requires c.g.Keep(t) == 0 ==> tasknum == 0
    requires Handed(c, t, j - 1, counters, tasknum, window, counters1, tasknum1, window1)
    requires Dealt(c, t, j, tasknum1, window1, counters1, tasknum', window', counters')
    ensures Handed(c, t, j, counters, tasknum, window, counters', tasknum', window')
  {
    CountSuccessor(c, t, j, counters, counters1);
    HandNext(c, t, counters, j, tasknum);
    var u, keep := c.g.succ[t][j - 1], c.g.Keep(t);
    HandedValues(keep, u, u != keep && (|c.g.pred[u]| == 1 || LastActivation(c, counters, u)), tasknum, window,
      BecomeReady(c, t, counters, j - 1), BecomeReady(c, t, counters, j), tasknum1, window1, tasknum', window');
  }

  lemma HandedValues(keep: int, u: int, ready: bool, tasknum: int, window: seq<int>, before: seq<int>, now: seq<int>,
                     tasknum1: int, window1: seq<int>, tasknum': int, window': seq<int>)
    requires tasknum1 == Register(keep, tasknum, before) && window1 == window + Queued(keep, before)
    requires Register(keep, tasknum, now) == if keep == 0 && ready && tasknum1 == 0 then u else tasknum1
    requires Queued(keep, now) == Queued(keep, before) + if ready && (keep != 0 || tasknum1 != 0) then [u] else []
    requires tasknum' == if keep == 0 && ready && tasknum1 == 0 then u else tasknum1
    requires window' == if ready && (keep != 0 || tasknum1 != 0) then window1 + [u] else window1
    ensures tasknum' == Register(keep, tasknum, now) && window' == window + Queued(keep, now)
  {
  }

  lemma HandedRoom(c: Config, t: int, j: nat, counters: seq<int>, tasknum: int, window: seq<int>,
                   tasknum1: int, window1: seq<int>, counters1: seq<int>)
    requires c.Valid() && c.g.IsTask(t) && |counters| == |c.g.succ| && j <= |c.g.succ[t]|
    requires Handed(c, t, j, counters, tasknum, window, counters1, tasknum1, window1)
    ensures |window1| <= |window| + j && |counters1| == |counters|
  {
  }

  lemma HandedNothing(c: Config, t: int, counters: seq<int>, tasknum: int, window: seq<int>)
    requires c.Valid() && c.g.IsTask(t) && |counters| == |c.g.succ| && (c.g.Keep(t) == 0 ==> tasknum == 0)
    ensures Handed(c, t, 0, counters, tasknum, window, counters, tasknum, window)
  {
    assert window + [] == window;
  }

  /** The loop over the successors: the hand after `j` of them, from one successor to the next. */
  lemma {:induction false} Successors(c: Config, s0: State, s: State, w: nat, t: int, j: nat, tasknum: int,
                                        window: seq<int>, counters: seq<int>)
      returns (run: seq<State>, s': State, tasknum': int, window': seq<int>, counters': seq<int>)
    requires c.Valid() && c.g.IsTask(t) && |c.g.succ[t]| != 1 && j <= |c.g.succ[t]| && Ready(c, s0, w)
    requires c.g.Keep(t) == 0 ==> tasknum == 0
    requires Stands(c, s0, s, w, Act(t, 1, Begin), tasknum, window, counters)
    requires s0.queues[w].tail + |window| + j <= |s0.queues[w].slots| && |counters| == |c.g.succ|
    ensures Handed(c, t, j, counters, tasknum, window, counters', tasknum', window')
    ensures Leads(c, s, w, run, s') && Stands(c, s0, s', w, Act(t, j + 1, Begin), tasknum', window', counters')
  {
    if j == 0 {
      run, s', tasknum', window', counters' := [s], s, tasknum, window, counters;
      HandedNothing(c, t, counters, tasknum, window);
    } else {
      var run1, s1, tasknum1, window1, counters1 := Successors(c, s0, s, w, t, j - 1, tasknum, window, counters);
      HandedRoom(c, t, j - 1, counters, tasknum, window, tasknum1, window1, counters1);
      HeadIs(c, s0, s1, w, Act(t, j, Begin), tasknum1, window1, counters1);
      var run2;
      run2, s', tasknum', window', counters' := NextSuccessor(c, s0, s1, w, t, j, tasknum1, window1, counters1);
      HandedNext(c, t, j, counters, tasknum, window, tasknum1, window1, counters1, tasknum', window', counters');
      run := Then(c, s, w, run1, s1, run2, s');
    }
  }

  lemma HeadIs(c: Config, s0: State, s: State, w: nat, pc: PC, tasknum: int, window: seq<int>, counters: seq<int>)
    requires Stands(c, s0, s, w, pc, tasknum, window, counters)
    ensures s.queues[w].head == s0.queues[w].tail + |window| && |s.queues[w].slots| == |s0.queues[w].slots|
  {
    assert |Window(s.queues[w])| == s.queues[w].head - s.queues[w].tail;
  }

  /** The register after the first action: empty where nothing is kept. */
  function Cleared(c: Config, t: int, tasknum: int): int
    requires c.Valid() && c.g.IsTask(t)
  {
    if c.g.Keep(t) == 0 then 0 else tasknum
  }

  /** First action of the code after a task with several successors. */
  lemma FirstAlone(c: Config, s0: State, s: State, w: nat, t: int, tasknum: int, window: seq<int>, counters: seq<int>)
      returns (run: seq<State>, s': State)
    requires c.Valid() && c.g.IsTask(t) && |c.g.succ[t]| != 1
    requires Stands(c, s0, s, w, Act(t, 0, Begin), tasknum, window, counters)
    ensures Leads(c, s, w, run, s') && Stands(c, s0, s', w, Act(t, 1, Begin), Cleared(c, t, tasknum), window, counters)
  {
    run, s' := Move(c, s, w);
  }

  /** Last action where a successor is kept. */
  lemma KeepAlone(c: Config, s0: State, s: State, w: nat, t: int, tasknum: int, window: seq<int>, counters: seq<int>)
      returns (run: seq<State>, s': State)
    requires c.Valid() && c.g.IsTask(t) && c.g.Keep(t) != 0
    requires Stands(c, s0, s, w, Act(t, c.g.Length(t) - 1, Begin), tasknum, window, counters)
    ensures Leads(c, s, w, run, s') && Stands(c, s0, s', w, Top, c.g.Keep(t), window, counters)
  {
    run, s' := Move(c, s, w);
  }

  /** Last action of the code after a task with several successors. */
  lemma LastAlone(c: Config, s0: State, s: State, w: nat, t: int, tasknum: int, window: seq<int>, counters: seq<int>)
      returns (run: seq<State>, s': State, tasknum': int, window': seq<int>)
    requires c.Valid() && c.g.IsTask(t) && |c.g.succ[t]| != 1
    requires Stands(c, s0, s, w, Act(t, |c.g.succ[t]| + 1, Begin), tasknum, window, counters)
    ensures if c.g.Keep(t) != 0 then tasknum' == c.g.Keep(t) && window' == window
            else if tasknum == 0 then Popped(window, window', tasknum')
            else tasknum' == tasknum && window' == window
    ensures Leads(c, s, w, run, s') && Stands(c, s0, s', w, Top, tasknum', window', counters)
  {
    if c.g.Keep(t) != 0 {
      run, s' := KeepAlone(c, s0, s, w, t, tasknum, window, counters);
      tasknum', window' := c.g.Keep(t), window;
    } else {
      run, s', tasknum', window' := GetReadyAlone(c, s0, s, w, t, tasknum, window, counters);
    }
  }

  /** What the worker goes on with and what it queues after task `t`. */
  ghost predicate Chooses(c: Config, t: int, counters: seq<int>, window: seq<int>, tasknum': int, window': seq<int>)
    requires c.Valid() && c.g.IsTask(t) && |counters| == |c.g.succ|
  {
    var ready, keep := BecomeReady(c, t, counters, |c.g.succ[t]|), c.g.Keep(t);
    if keep != 0 then tasknum' == keep && window' == window + ready
    else if ready != [] then tasknum' == ready[0] && window' == window + ready[1..]
    else Popped(window, window', tasknum')
  }

  lemma WholeCode(c: Config, s: State, w: nat, t: int)
      returns (run: seq<State>, s': State, tasknum': int, window': seq<int>, counters': seq<int>)
    requires Ready(c, s, w) && AtMicro(c, s, w, t, 0, Begin) && t != LAST_TASK_INDEX && Proper(s.queues[w])
    requires s.queues[w].head + |c.g.succ[t]| <= |s.queues[w].slots|
    ensures Leads(c, s, w, run, s') && Stands(c, s, s', w, Top, tasknum', window', counters')
    ensures Counted(c, c.g.succ[t], s.counters, counters')
    ensures Chooses(c, t, s.counters, Window(s.queues[w]), tasknum', window')
  {
    var tasknum, window, counters := s.workers[w].tasknum, Window(s.queues[w]), s.counters;
    assert Stands(c, s, s, w, Act(t, 0, Begin), tasknum, window, counters);
    if |c.g.succ[t]| == 1 {
      run, s', tasknum', window', counters' := OnlySuccessor(c, s, s, w, t, tasknum, window, counters);
    } else {
      run, s', tasknum', window', counters' := SeveralSuccessors(c, s, s, w, t, tasknum, window, counters);
    }
  }

  lemma SeveralSuccessors(c: Config, s0: State, s: State, w: nat, t: int, tasknum: int, window: seq<int>, counters: seq<int>)
      returns (run: seq<State>, s': State, tasknum': int, window': seq<int>, counters': seq<int>)
    requires c.Valid() && c.g.IsTask(t) && |c.g.succ[t]| != 1
    requires Stands(c, s0, s, w, Act(t, 0, Begin), tasknum, window, counters)
    requires s.queues[w].head + |c.g.succ[t]| <= |s.queues[w].slots|
    ensures Leads(c, s, w, run, s') && Stands(c, s0, s', w, Top, tasknum', window', counters')
    ensures |counters| == |c.g.succ| && Counted(c, c.g.succ[t], counters, counters')
    ensures Chooses(c, t, counters, window, tasknum', window')
  {
    var run1, s1, tasknum1, window1, run2;
    run1, s1, tasknum1, window1, counters' := AllSuccessors(c, s0, s, w, t, tasknum, window, counters);
    run2, s', tasknum', window' := LastAlone(c, s0, s1, w, t, tasknum1, window1, counters');
    run := Then(c, s, w, run1, s1, run2, s');
    HandedAll(c, t, counters, Cleared(c, t, tasknum), window, counters', tasknum1, window1, tasknum', window');
  }

  /** All actions but the last one. */
  lemma AllSuccessors(c: Config, s0: State, s: State, w: nat, t: int, tasknum: int, window: seq<int>, counters: seq<int>)
      returns (run: seq<State>, s': State, tasknum': int, window': seq<int>, counters': seq<int>)
    requires c.Valid() && c.g.IsTask(t) && |c.g.succ[t]| != 1 && |counters| == |c.g.succ|
    requires Stands(c, s0, s, w, Act(t, 0, Begin), tasknum, window, counters)
    requires s.queues[w].head + |c.g.succ[t]| <= |s.queues[w].slots|
    ensures Handed(c, t, |c.g.succ[t]|, counters, Cleared(c, t, tasknum), window, counters', tasknum', window')
    ensures Leads(c, s, w, run, s') && Stands(c, s0, s', w, Act(t, |c.g.succ[t]| + 1, Begin), tasknum', window', counters')
  {
    HeadIs(c, s0, s, w, Act(t, 0, Begin), tasknum, window, counters);
    var run1, s1 := FirstAlone(c, s0, s, w, t, tasknum, window, counters);
    var run2;
    run2, s', tasknum', window', counters' :=
      Successors(c, s0, s1, w, t, |c.g.succ[t]|, Cleared(c, t, tasknum), window, counters);
    run := Then(c, s, w, run1, s1, run2, s');
  }

  /** What all successors together leave behind, before and after the last action. */
  lemma HandedAll(c: Config, t: int, counters: seq<int>, first: int, window: seq<int>, counters': seq<int>,
                  tasknum1: int, window1: seq<int>, tasknum': int, window': seq<int>)
    requires c.Valid() && c.g.IsTask(t) && |counters| == |c.g.succ| && (c.g.Keep(t) == 0 ==> first == 0)
    requires Handed(c, t, |c.g.succ[t]|, counters, first, window, counters', tasknum1, window1)
    requires if c.g.Keep(t) != 0 then tasknum' == c.g.Keep(t) && window' == window1
             else if tasknum1 == 0 then Popped(window1, window', tasknum')
             else tasknum' == tasknum1 && window' == window1
    ensures Counted(c, c.g.succ[t], counters, counters')
    ensures Chooses(c, t, counters, window, tasknum', window')
  {
    assert c.g.succ[t][..|c.g.succ[t]|] == c.g.succ[t];
    assert window + [] == window;
  }

  /** The code after a task with one successor. */
  lemma OnlySuccessor(c: Config, s0: State, s: State, w: nat, t: int, tasknum: int, window: seq<int>, counters: seq<int>)
      returns (run: seq<State>, s': State, tasknum': int, window': seq<int>, counters': seq<int>)
    requires c.Valid() && c.g.IsTask(t) && |c.g.succ[t]| == 1
    requires Stands(c, s0, s, w, Act(t, 0, Begin), tasknum, window, counters)
    ensures Leads(c, s, w, run, s') && Stands(c, s0, s', w, Top, tasknum', window', counters')
    ensures |counters| == |c.g.succ| && Counted(c, c.g.succ[t], counters, counters')
    ensures Chooses(c, t, counters, window, tasknum', window')
  {
    var u := c.g.succ[t][0];
    assert t in c.g.pred[u];
    if |c.g.pred[u]| == 1 {
      run, s' := KeepAlone(c, s0, s, w, t, tasknum, window, counters);
      tasknum', window', counters' := u, window, counters;
    } else {
      run, s', tasknum', window' := ActivateOneAlone(c, s0, s, w, t, tasknum, window, counters);
      counters' := counters[u := counters[u] - 1];
    }
  }
}
