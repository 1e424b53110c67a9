/** The task graph that the code generator hands to the work-stealing scheduler, and the
    activation code that it generates at the end of every task.

    Tasks are numbered from 1: number 0 means "no task, steal one", number 1 is the end task
    that closes a cycle, and the loops of the program are numbered from 2. */
module TaskGraph {
  import opened Sequences

  const WORK_STEALING_INDEX := 0
  const LAST_TASK_INDEX := 1

  /** Stands for an input that never comes; not a task. */
  const NOBODY := 0

  /** Heads and tails of the queues are 16-bit signed integers. */
  const MAX_SHORT := 32767

  /** `succ[t]` lists the tasks that wait for `t`, in the order in which the generated code
      activates them; `pred[t]` is the set of tasks that `t` waits for; `level[t]` is the depth
      of `t` in the sorted graph; `ready` lists the tasks without input, as AddReadyTask
      received them.  `|succ|` is the loop count, the size of every queue. */
  datatype Graph = Graph(succ: seq<seq<int>>, pred: seq<set<int>>, level: seq<nat>, ready: seq<int>)
  {
    predicate IsTask(t: int) {
      1 <= t < |succ|
    }

    ghost predicate Valid() {
      && |pred| == |succ| && |level| == |succ| && |succ| <= MAX_SHORT
      && IsTask(LAST_TASK_INDEX) && succ[LAST_TASK_INDEX] == [] && pred[LAST_TASK_INDEX] != {}
      && (forall t :: IsTask(t) && t != LAST_TASK_INDEX ==> succ[t] != [])
      && (forall t :: IsTask(t) ==> NoDuplicates(succ[t]))
      && (forall t, j :: IsTask(t) && 0 <= j < |succ[t]| ==>
            IsTask(succ[t][j]) && t in pred[succ[t][j]] && level[succ[t][j]] < level[t])
      && (forall t, p :: IsTask(t) && p in pred[t] ==> IsTask(p) && t in succ[p])
      && NoDuplicates(ready)
      && (forall t :: t in ready <==> IsTask(t) && pred[t] == {})
    }

    /** The first successor of `t` that has `t` as its only input, or 0. */
    function Keep(t: int): (u: int)
      requires Valid() && IsTask(t)
      ensures u == 0 ==> forall j :: 0 <= j < |succ[t]| ==> |pred[succ[t][j]]| > 1
      ensures u != 0 ==> u in succ[t] && |pred[u]| == 1
    {
      FirstSingle(t, 0)
    }

    function FirstSingle(t: int, from: nat): (u: int)
      requires Valid() && IsTask(t) && from <= |succ[t]|
      ensures u == 0 ==> forall j :: from <= j < |succ[t]| ==> |pred[succ[t][j]]| > 1
      ensures u != 0 ==> u in succ[t][from..] && |pred[u]| == 1
      decreases |succ[t]| - from
    {
      if from == |succ[t]| then 0
      else
        assert t in pred[succ[t][from]];
        if |pred[succ[t][from]]| == 1 then succ[t][from] else FirstSingle(t, from + 1)
    }

    /** The kept successor is the first one that has `t` as its only input. */
    lemma KeepIsFirst(t: int)
      requires Valid() && IsTask(t)
      ensures Keep(t) != 0 ==> exists j :: 0 <= j < |succ[t]| && succ[t][j] == Keep(t)
                                 && forall i :: 0 <= i < j ==> |pred[succ[t][i]]| > 1
    {
      FirstSingleIsFirst(t, 0);
    }

    lemma {:induction false} FirstSingleIsFirst(t: int, from: nat)
      requires Valid() && IsTask(t) && from <= |succ[t]|
      ensures FirstSingle(t, from) != 0 ==> exists j :: from <= j < |succ[t]| && succ[t][j] == FirstSingle(t, from)
                                              && forall i :: from <= i < j ==> |pred[succ[t][i]]| > 1
      decreases |succ[t]| - from
    {
      if from < |succ[t]| {
        assert t in pred[succ[t][from]];
        if |pred[succ[t][from]]| != 1 {
          FirstSingleIsFirst(t, from + 1);
        }
      }
    }

    /** Number of actions in the code generated after the body of task `t`. */
    function Length(t: int): nat
      requires IsTask(t)
    {
      if |succ[t]| == 1 then 1 else |succ[t]| + 2
    }

    /** The `k`-th action of that code. */
    function ActionAt(t: int, k: nat): (a: Action)
      requires Valid() && IsTask(t) && k < Length(t)
    {
      var ss := succ[t];
      if |ss| == 1 then
        if |pred[ss[0]]| == 1 then SetTask(ss[0]) else ActivateOne(ss[0])
      else
        var keep := Keep(t);
        if k == 0 then
          if keep == 0 then ResetTask else Skip
        else if k == |ss| + 1 then
          if keep == 0 then GetReady else SetTask(keep)
        else
          var u := ss[k - 1];
          if |pred[u]| == 1 then
            if u == keep then Skip else Push(u)
          else if keep == 0 then Activate1(u) else Activate2(u)
    }

    /** Where in that code the `j`-th successor is activated. */
    function Position(t: int, j: nat): (k: nat)
      requires Valid() && IsTask(t) && j < |succ[t]|
      ensures k < Length(t)
    {
      if |succ[t]| == 1 then 0
      else if succ[t][j] == Keep(t) then |succ[t]| + 1
      else j + 1
    }

    /** Where in that code the last activation is made. */
    function LastPosition(t: int): (k: nat)
      requires Valid() && IsTask(t) && succ[t] != []
      ensures k < Length(t)
    {
      if |succ[t]| == 1 then 0
      else if Keep(t) == 0 then |succ[t]|
      else |succ[t]| + 1
    }

    /** The code clears `tasknum` before it activates several tasks of which none is kept. */
    predicate Clears(t: int)
      requires Valid() && IsTask(t)
    {
      |succ[t]| != 1 && Keep(t) == 0
    }
  }

  datatype Action =
    | Skip
    | ResetTask            // tasknum = WORK_STEALING_INDEX
    | SetTask(u: int)      // tasknum = u
    | Push(u: int)         // pushHead(u)
    | ActivateOne(u: int)  // activateOneOutputTask(u, &tasknum)
    | Activate1(u: int)    // activateOutputTask1(u, &tasknum)
    | Activate2(u: int)    // activateOutputTask2(u)
    | GetReady             // getReadyTask(&tasknum)
  {
    predicate Targets(v: int) {
      && (SetTask? || Push? || ActivateOne? || Activate1? || Activate2?)
      && this.u == v
    }
    predicate Decrements() {
      ActivateOne? || Activate1? || Activate2?
    }
  }

  /** The generated code activates every successor exactly once, and it goes through the
      activation counter exactly when the successor has more than one input. */
  lemma ActivatesEachSuccessorOnce(g: Graph, t: int, k: nat, j: nat)
    requires g.Valid() && g.IsTask(t) && k < g.Length(t) && j < |g.succ[t]|
    ensures g.ActionAt(t, k).Targets(g.succ[t][j]) <==> k == g.Position(t, j)
    ensures g.ActionAt(t, g.Position(t, j)).Decrements() <==> |g.pred[g.succ[t][j]]| > 1
    ensures g.Position(t, j) <= g.LastPosition(t)
  {
    var ss := g.succ[t];
    assert t in g.pred[ss[j]];
    if |ss| != 1 && 1 <= k <= |ss| {
      assert t in g.pred[ss[k - 1]];
      assert ss[k - 1] == ss[j] ==> k - 1 == j;
    }
  }

  /** Conversely every action with a target activates one of the successors. */
  lemma ActionHasSuccessor(g: Graph, t: int, k: nat) returns (j: nat)
    requires g.Valid() && g.IsTask(t) && k < g.Length(t)
    requires exists v :: g.ActionAt(t, k).Targets(v)
    ensures j < |g.succ[t]| && g.ActionAt(t, k).Targets(g.succ[t][j]) && g.Position(t, j) == k
  {
    var v :| g.ActionAt(t, k).Targets(v);
    if |g.succ[t]| == 1 {
      j := 0;
    } else if 1 <= k <= |g.succ[t]| {
      j := k - 1;
    } else {
      j :| 0 <= j < |g.succ[t]| && g.succ[t][j] == g.Keep(t);
    }
    ActivatesEachSuccessorOnce(g, t, k, j);
  }

  /** The last activation is made at `LastPosition`. */
  lemma LastPositionIsReached(g: Graph, t: int) returns (j: nat)
    requires g.Valid() && g.IsTask(t) && g.succ[t] != []
    ensures j < |g.succ[t]| && g.Position(t, j) == g.LastPosition(t)
  {
    if |g.succ[t]| == 1 {
      j := 0;
    } else if g.Keep(t) == 0 {
      j := |g.succ[t]| - 1;
      assert g.IsTask(g.succ[t][j]);
    } else {
      j :| 0 <= j < |g.succ[t]| && g.succ[t][j] == g.Keep(t);
    }
  }

  /** Where the different actions stand in the generated code. */
  lemma ActionPositions(g: Graph, t: int, k: nat)
    requires g.Valid() && g.IsTask(t) && t != LAST_TASK_INDEX && k < g.Length(t)
    ensures var a, last, end := g.ActionAt(t, k), g.LastPosition(t), g.Length(t) - 1;
      && (a.SetTask? || a.ActivateOne? ==> k == last == end && !g.Clears(t))
      && (a.GetReady? ==> last < k == end && g.Clears(t) && k >= 1)
      && (a.Push? || a.Activate2? || a.Skip? ==> k < last && k < end && !g.Clears(t))
      && (a.Activate1? ==> 1 <= k <= last && k < end && g.Clears(t))
      && (a.ResetTask? ==> 0 == k < last && k < end && g.Clears(t))
  {
    var ss := g.succ[t];
    if |ss| != 1 && 1 <= k <= |ss| {
      assert t in g.pred[ss[k - 1]];
    }
  }

  /** Task 2 feeds tasks 3 and 4, and both feed the end task. */
  const DIAMOND := Graph([[], [], [3, 4], [1], [1]], [{}, {3, 4}, {}, {2}, {2}], [0, 0, 2, 1, 1], [2])

  lemma DiamondTask(t: int)
    requires 1 <= t < 5
    ensures |DIAMOND.succ| == |DIAMOND.pred| == |DIAMOND.level| == 5
    ensures DIAMOND.succ[t] == if t == 1 then [] else if t == 2 then [3, 4] else [1]
    ensures DIAMOND.pred[t] == if t == 1 then {3, 4} else if t == 2 then {} else {2}
    ensures DIAMOND.level[t] == if t == 1 then 0 else if t == 2 then 2 else 1
    ensures (t != LAST_TASK_INDEX ==> DIAMOND.succ[t] != []) && NoDuplicates(DIAMOND.succ[t])
    ensures t in DIAMOND.ready <==> DIAMOND.pred[t] == {}
  {
  }

  lemma DiamondEdges(t: int, j: int)
    requires 1 <= t < 5 && 0 <= j < |DIAMOND.succ[t]|
    ensures DIAMOND.IsTask(DIAMOND.succ[t][j]) && t in DIAMOND.pred[DIAMOND.succ[t][j]]
    ensures DIAMOND.level[DIAMOND.succ[t][j]] < DIAMOND.level[t]
  {
    DiamondTask(t);
    DiamondTask(DIAMOND.succ[t][j]);
  }

  lemma DiamondInputs(t: int, p: int)
    requires 1 <= t < 5 && p in DIAMOND.pred[t]
    ensures DIAMOND.IsTask(p) && t in DIAMOND.succ[p]
  {
    DiamondTask(t);
    DiamondTask(p);
    assert [3, 4][0] == 3 && [3, 4][1] == 4 && [1][0] == 1;
  }

  lemma DiamondTasks()
    ensures forall t :: DIAMOND.IsTask(t) ==>
      && (t != LAST_TASK_INDEX ==> DIAMOND.succ[t] != []) && NoDuplicates(DIAMOND.succ[t])
      && (t in DIAMOND.ready <==> DIAMOND.pred[t] == {})
  {
    forall t | DIAMOND.IsTask(t)
      ensures (t != LAST_TASK_INDEX ==> DIAMOND.succ[t] != []) && NoDuplicates(DIAMOND.succ[t])
      ensures t in DIAMOND.ready <==> DIAMOND.pred[t] == {}
    {
      DiamondTask(t);
    }
  }

  lemma DiamondLinks()
    ensures forall t, j :: DIAMOND.IsTask(t) && 0 <= j < |DIAMOND.succ[t]| ==>
      && DIAMOND.IsTask(DIAMOND.succ[t][j]) && t in DIAMOND.pred[DIAMOND.succ[t][j]]
      && DIAMOND.level[DIAMOND.succ[t][j]] < DIAMOND.level[t]
    ensures forall t, p :: DIAMOND.IsTask(t) && p in DIAMOND.pred[t] ==> DIAMOND.IsTask(p) && t in DIAMOND.succ[p]
  {
    var g := DIAMOND;
    forall t, j | g.IsTask(t) && 0 <= j < |g.succ[t]|
      ensures g.IsTask(g.succ[t][j]) && t in g.pred[g.succ[t][j]] && g.level[g.succ[t][j]] < g.level[t]
    {
      DiamondEdges(t, j);
    }
    forall t, p | g.IsTask(t) && p in g.pred[t] ensures g.IsTask(p) && t in g.succ[p] {
      DiamondInputs(t, p);
    }
  }

  /** The diamond is a graph as the generator makes them. */
  lemma DiamondIsValid()
    ensures DIAMOND.Valid()
  {
    DiamondTasks();
    DiamondTask(LAST_TASK_INDEX);
    DiamondLinks();
  }
}
