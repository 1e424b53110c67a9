/** What the scheduler guarantees in every interleaving of any number of workers. */
module WorkStealingTheorems {
  import opened Sequences
  import opened TaskGraph
  import opened Distribution
  import opened WorkStealing
  import opened WorkStealingInvariant
  import opened WorkStealingPush
  import opened WorkStealingReset
  import opened WorkStealingSafety
  import opened WorkStealingTraffic
  import opened WorkStealingFrames

  // ---------------------------------------------------------------------------------------
  // The initial state
  // ---------------------------------------------------------------------------------------

  /** The queue and the position at which the `k`-th ready task is dispatched. */
  ghost function Dispatched(c: Config, k: nat): (pl: Place)
    requires c.Valid() && k < |c.g.ready|
    ensures pl.Slot? && pl.q < c.threads && 0 <= pl.pos < Size(|c.g.ready|, c.threads, pl.q)
    ensures Origin(|c.g.ready|, c.threads, pl.q, pl.pos) == k
  {
    DispatchExists(c, k);
    var i: nat, pos: nat :| DispatchedTo(c, k, i, pos);
    Slot(i, pos)
  }

  ghost predicate DispatchedTo(c: Config, k: nat, i: nat, pos: nat) {
    i < c.threads && pos < Size(|c.g.ready|, c.threads, i) && Origin(|c.g.ready|, c.threads, i, pos) == k
  }

  lemma DispatchExists(c: Config, k: nat)
    requires c.Valid() && k < |c.g.ready|
    ensures exists i: nat, pos: nat :: DispatchedTo(c, k, i, pos)
  {
    var i, pos := OriginSurjective(|c.g.ready|, c.threads, k);
    assert DispatchedTo(c, k, i, pos);
  }

  ghost function InitialHistory(c: Config): History
    requires c.Valid()
  {
    History(c.AllNeeds(), map t | t in c.g.ready :: Dispatched(c, IndexIn(c.g.ready, t)), -1, 0)
  }

  lemma ReadyBound(c: Config)
    requires c.Valid()
    ensures |c.g.ready| < |c.g.succ|
  {
    forall i | 0 <= i < |c.g.ready| ensures 1 <= c.g.ready[i] < |c.g.succ| {
      assert c.g.ready[i] in c.g.ready;
    }
    DistinctBound(c.g.ready, 1, |c.g.succ|);
  }

  lemma InitialQueueShape(c: Config, i: nat)
    requires c.Valid() && i < c.threads
    ensures var q, n := InitialQueue(c, i), Size(|c.g.ready|, c.threads, i);
      && |q.slots| == |c.g.succ| && q.tail == 0 && q.head == n < |c.g.succ|
      && forall pos :: 0 <= pos < n ==>
           && 0 <= Origin(|c.g.ready|, c.threads, i, pos) < |c.g.ready|
           && q.slots[pos] == c.g.ready[Origin(|c.g.ready|, c.threads, i, pos)]
  {
    ReadyBound(c);
    SliceBounds(|c.g.ready|, c.threads, i);
    var n := Size(|c.g.ready|, c.threads, i);
    forall pos | 0 <= pos < n
      ensures 0 <= Origin(|c.g.ready|, c.threads, i, pos) < |c.g.ready|
      ensures InitialQueue(c, i).slots[pos] == c.g.ready[Origin(|c.g.ready|, c.threads, i, pos)]
    {
      OriginCorrect(c.g.ready, c.threads, i, pos);
    }
  }

  lemma InitialAt(c: Config, p: Place, t: int)
    requires c.Valid() && At(c, InitialState(c), p, t)
    ensures t in c.g.ready && p == Dispatched(c, IndexIn(c.g.ready, t))
  {
    assert p.Slot?;
    InitialQueueShape(c, p.q);
    var k := Origin(|c.g.ready|, c.threads, p.q, p.pos);
    assert c.g.ready[k] == t;
    var k' := IndexIn(c.g.ready, t);
    assert k == k';
    var p' := Dispatched(c, k');
    OriginInjective(|c.g.ready|, c.threads, p.q, p.pos, p'.q, p'.pos);
  }

  lemma InitialPlaces(c: Config)
    requires c.Valid()
    ensures Places(c, InitialState(c), InitialHistory(c))
  {
    var s, h := InitialState(c), InitialHistory(c);
    forall p, t | At(c, s, p, t) ensures t in h.loc && h.loc[t] == p {
      InitialAt(c, p, t);
    }
    forall t | t in h.loc ensures At(c, s, h.loc[t], t) {
      assert c.g.IsTask(t);
      InitialQueueShape(c, h.loc[t].q);
    }
  }

  lemma InitialSlot(c: Config, q: nat, x: int)
    requires c.Valid() && q < c.threads && 0 <= x < InitialQueue(c, q).head
    ensures x < |InitialQueue(c, q).slots| && InitialQueue(c, q).slots[x] in c.g.ready
  {
    InitialQueueShape(c, q);
  }

  lemma InitialSlotsDiffer(c: Config, q: nat, x: int, y: int)
    requires c.Valid() && q < c.threads && 0 <= x < y < InitialQueue(c, q).head
    ensures y < |InitialQueue(c, q).slots| && InitialQueue(c, q).slots[x] != InitialQueue(c, q).slots[y]
  {
    InitialQueueShape(c, q);
    if Origin(|c.g.ready|, c.threads, q, x) == Origin(|c.g.ready|, c.threads, q, y) {
      OriginInjective(|c.g.ready|, c.threads, q, x, q, y);
    }
  }

  lemma InitialShape(c: Config)
    requires c.Valid()
    ensures Shape(c, InitialState(c), InitialHistory(c))
  {
    forall q | 0 <= q < c.threads
      ensures var r := InitialState(c).queues[q]; |r.slots| == |c.g.succ| && 0 <= r.tail <= r.head < |c.g.succ|
    {
      InitialQueueShape(c, q);
    }
  }

  lemma InitialPrefixes(c: Config)
    requires c.Valid()
    ensures Shape(c, InitialState(c), InitialHistory(c)) && Prefixes(c, InitialState(c), InitialHistory(c))
  {
    var s, h := InitialState(c), InitialHistory(c);
    InitialShape(c);
    forall q, x | 0 <= q < c.threads && 0 <= x < s.queues[q].head ensures WasPushed(c, h, s.queues[q].slots[x]) {
      InitialSlot(c, q, x);
      InitialPushed(c, s.queues[q].slots[x]);
    }
    forall q, x, y | 0 <= q < c.threads && 0 <= x < y < s.queues[q].head
      ensures s.queues[q].slots[x] != s.queues[q].slots[y]
    {
      InitialSlotsDiffer(c, q, x, y);
    }
  }

  lemma InitialPushed(c: Config, t: int)
    requires c.Valid() && t in c.g.ready
    ensures WasPushed(c, InitialHistory(c), t)
  {
  }

  lemma InitialInv(c: Config)
    requires c.Valid()
    ensures Inv(c, InitialState(c), InitialHistory(c))
  {
    var s, h := InitialState(c), InitialHistory(c);
    InitialPlaces(c);
    InitialPrefixes(c);
    assert Released(c, h);
    assert Edges(c, s, h) by {
      forall p, j | c.g.IsTask(p) && 0 <= j < |c.g.succ[p]| ensures p in h.pend[c.g.succ[p][j]] && !Fired(c, s, h, p, j) {
        assert p in c.g.ready <==> c.g.pred[p] == {};
      }
    }
    assert Logged(c, s, h) by {
      forall t | c.g.IsTask(t) ensures !Begun(h, t) && !Ended(s, h, t) {
        assert t in c.g.ready <==> c.g.pred[t] == {};
      }
    }
    assert Offset(c, 0) == 0;
    assert Counters(c, s, h) by {
      forall t | c.g.IsTask(t) && |c.g.pred[t]| > 1 ensures s.counters[t] == |h.pend[t]| - Lag(c) {
        NeedsOf(c, t);
      }
    }
  }

  lemma InitialStage(c: Config, t: int)
    requires c.Valid() && c.g.IsTask(t)
    ensures if t in c.g.ready then StageOf(InitialHistory(c), t).Queued? else StageOf(InitialHistory(c), t).Before?
  {
    assert t in c.g.ready <==> c.g.pred[t] == {};
  }

  lemma InitialSent(c: Config, t: int)
    requires c.Valid()
    ensures Sent(t, 0) in InitialState(c).traffic <==> t in c.g.ready
    ensures Taken(t, 0) !in InitialState(c).traffic
  {
    if t in c.g.ready {
      assert InitialState(c).traffic[IndexIn(c.g.ready, t)] == Sent(t, 0);
    }
  }

  lemma InitialEntries(c: Config)
    requires c.Valid()
    ensures Paired(InitialState(c).traffic)
    ensures forall e :: e in InitialState(c).traffic ==> c.g.IsTask(e.task) && e.index == 0
  {
    var traffic := InitialState(c).traffic;
    forall e | e in traffic ensures c.g.IsTask(e.task) && e.index == 0 {
      var k :| 0 <= k < |traffic| && traffic[k] == e;
      assert c.g.ready[k] in c.g.ready;
    }
  }

  lemma InitialTraffic(c: Config)
    requires c.Valid()
    ensures Traffic(c, InitialState(c), InitialHistory(c))
  {
    assert Offset(c, 0) == 0;
    InitialEntries(c);
    forall t | c.g.IsTask(t)
      ensures Sent(t, 0) in InitialState(c).traffic ==> !StageOf(InitialHistory(c), t).Before?
      ensures StageOf(InitialHistory(c), t).Queued? <==>
        Sent(t, 0) in InitialState(c).traffic && Taken(t, 0) !in InitialState(c).traffic
    {
      InitialStage(c, t);
      InitialSent(c, t);
    }
  }

  /** The invariant holds after every schedule. */
  lemma {:induction false} ReachableInv(c: Config, schedule: seq<nat>) returns (h: History)
    requires c.Valid() && IsSchedule(c, schedule)
    ensures Inv(c, Execute(c, schedule), h) && Traffic(c, Execute(c, schedule), h)
  {
    if schedule == [] {
      InitialInv(c);
      InitialTraffic(c);
      h := InitialHistory(c);
    } else {
      var last := |schedule| - 1;
      var s := Execute(c, schedule[..last]);
      var h0 := ReachableInv(c, schedule[..last]);
      h := StepKeepsInv(c, s, h0, schedule[last]);
      TransportKeeps(c, s, h0, Step(c, s, schedule[last]), h);
    }
  }

  // ---------------------------------------------------------------------------------------
  // Safety
  // ---------------------------------------------------------------------------------------

  /** No array is ever accessed out of bounds, and no queue overflows or underflows: head stays
      between tail and the number of tasks, hence within 16 bits. */
  lemma MemorySafe(c: Config, schedule: seq<nat>)
    requires c.Valid() && IsSchedule(c, schedule)
    ensures var s := Execute(c, schedule);
      && !s.fault
      && forall q :: 0 <= q < |s.queues| ==> 0 <= s.queues[q].tail <= s.queues[q].head < |c.g.succ| <= MAX_SHORT
  {
    var h := ReachableInv(c, schedule);
  }

  /** A task body is executed at most once on each block, and only after the bodies of all its
      inputs have finished on the same block. */
  lemma ExecutedOnceAfterInputs(c: Config, schedule: seq<nat>)
    requires c.Valid() && IsSchedule(c, schedule)
    ensures var log := Execute(c, schedule).log;
      && (forall a, b :: 0 <= a < b < |log| ==> log[a] != log[b])
      && forall a, p :: 0 <= a < |log| && log[a].Start? && c.g.IsTask(log[a].task) && p in c.g.pred[log[a].task] ==>
           exists b :: 0 <= b < a && log[b] == Finish(p, log[a].index)
  {
    var h := ReachableInv(c, schedule);
    var log := Execute(c, schedule).log;
    forall a, p | 0 <= a < |log| && log[a].Start? && c.g.IsTask(log[a].task) && p in c.g.pred[log[a].task]
      ensures exists b :: 0 <= b < a && log[b] == Finish(p, log[a].index)
    {
      var e := Finish(p, log[a].index);
      assert e in log[..a];
      var b :| 0 <= b < |log[..a]| && log[..a][b] == e;
      assert log[b] == e;
    }
  }

  /** The index that a worker with a task has read at its loop head is still the current one, so that it computes the
      samples of the current block. */
  lemma IndexIsCurrent(c: Config, schedule: seq<nat>, w: nat)
    requires c.Valid() && IsSchedule(c, schedule) && w < c.threads
    ensures var s := Execute(c, schedule);
      && (s.workers[w].pc.Run? ==> s.workers[w].pc.idx == s.index)
      && (s.workers[w].pc.Switch? && s.workers[w].tasknum != 0 ==> s.workers[w].pc.idx == s.index)
  {
    var h := ReachableInv(c, schedule);
    assert WorkerOk(c, Execute(c, schedule), w);
  }

  /** A task is never at two places: neither in two queues, nor in a queue and in the hands of a
      worker, nor in the hands of two workers. */
  lemma OnePlacePerTask(c: Config, schedule: seq<nat>, t: int, pl1: Place, pl2: Place)
    requires c.Valid() && IsSchedule(c, schedule)
    requires At(c, Execute(c, schedule), pl1, t) && At(c, Execute(c, schedule), pl2, t)
    ensures pl1 == pl2
  {
    var h := ReachableInv(c, schedule);
  }

  /** Every item is delivered exactly once: on one block no task becomes visible in a queue twice or is taken out
      twice, every task taken out was put in before, and when the buffer is complete every task put in was taken
      out. */
  lemma DeliveredOnce(c: Config, schedule: seq<nat>)
    requires c.Valid() && IsSchedule(c, schedule)
    ensures var s, traffic := Execute(c, schedule), Execute(c, schedule).traffic;
      && (forall a, b :: 0 <= a < b < |traffic| ==> traffic[a] != traffic[b])
      && (forall a :: 0 <= a < |traffic| && traffic[a].Taken? ==>
            exists b :: 0 <= b < a && traffic[b] == Sent(traffic[a].task, traffic[a].index))
      && (0 < c.full <= s.index ==> forall e :: e in traffic && e.Sent? ==> Taken(e.task, e.index) in traffic)
  {
    var h := ReachableInv(c, schedule);
    SentFirst(Execute(c, schedule).traffic);
    if 0 < c.full <= Execute(c, schedule).index {
      AllTaken(c, Execute(c, schedule), h);
    }
  }

  lemma SentFirst(traffic: seq<Transfer>)
    requires Paired(traffic)
    ensures forall a :: 0 <= a < |traffic| && traffic[a].Taken? ==>
      exists b :: 0 <= b < a && traffic[b] == Sent(traffic[a].task, traffic[a].index)
  {
    forall a | 0 <= a < |traffic| && traffic[a].Taken?
      ensures exists b :: 0 <= b < a && traffic[b] == Sent(traffic[a].task, traffic[a].index)
    {
      var e := Sent(traffic[a].task, traffic[a].index);
      assert e in traffic[..a];
      var b :| 0 <= b < |traffic[..a]| && traffic[..a][b] == e;
      assert traffic[b] == e;
    }
  }

  lemma AllTaken(c: Config, s: State, h: History)
    requires c.Valid() && |h.pend| == |c.g.succ| && Index(c, s, h) && Complete(c, s) && Traffic(c, s, h)
    ensures forall e :: e in s.traffic && e.Sent? ==> Taken(e.task, e.index) in s.traffic
  {
    forall e | e in s.traffic && e.Sent? ensures Taken(e.task, e.index) in s.traffic {
      assert Retired(h, e.task);
    }
  }

  /** At any time the tasks that were put in on the current block and not taken out yet are those in the queue
      windows and those claimed by a CAS whose slot is still to be read. */
  lemma InTransit(c: Config, schedule: seq<nat>, t: int)
    requires c.Valid() && IsSchedule(c, schedule) && c.g.IsTask(t) && Execute(c, schedule).index < c.full
    ensures var s := Execute(c, schedule);
      Sent(t, s.index) in s.traffic && Taken(t, s.index) !in s.traffic <==>
      exists pl: Place :: (pl.Slot? || pl.Claimed?) && At(c, s, pl, t)
  {
    var h := ReachableInv(c, schedule);
    var s := Execute(c, schedule);
    if StageOf(h, t).Queued? {
      assert At(c, s, h.loc[t], t);
    }
  }

  lemma ExecuteSnoc(c: Config, schedule: seq<nat>, v: nat)
    requires c.Valid() && IsSchedule(c, schedule + [v])
    ensures v < c.threads && IsSchedule(c, schedule)
    ensures Execute(c, schedule + [v]) == Step(c, Execute(c, schedule), v)
  {
    var all := schedule + [v];
    assert all[..|all| - 1] == schedule && all[|schedule|] == v;
    assert forall i :: 0 <= i < |schedule| ==> all[i] == schedule[i];
  }

  lemma ClaimSurvives(c: Config, schedule: seq<nat>, v: nat, w: nat)
    requires c.Valid() && IsSchedule(c, schedule) && v < c.threads && w < c.threads && v != w
    requires Claims(Execute(c, schedule).workers[w].pc)
    ensures var s, s' := Execute(c, schedule), Step(c, Execute(c, schedule), v);
      s'.workers[w] == s.workers[w] && ClaimedTask(s', w) == ClaimedTask(s, w)
  {
    var h := ReachableInv(c, schedule);
    var s := Execute(c, schedule);
    StepFrame(c, s, h, v);
    StepOnlyOwn(c, s, v);
    ClaimKept(c, s, h, Step(c, s, v), v, w);
  }

  /** Between the CAS that claims a task and the read of its slot nobody else changes that slot. */
  lemma {:induction false} ClaimIsStable(c: Config, schedule: seq<nat>, more: seq<nat>, w: nat)
    requires c.Valid() && IsSchedule(c, schedule) && IsSchedule(c, schedule + more) && w < c.threads && w !in more
    requires Claims(Execute(c, schedule).workers[w].pc)
    ensures Execute(c, schedule + more).workers[w] == Execute(c, schedule).workers[w]
    ensures ClaimedTask(Execute(c, schedule + more), w) == ClaimedTask(Execute(c, schedule), w)
    decreases |more|
  {
    if more == [] {
      assert schedule + more == schedule;
    } else {
      var last := |more| - 1;
      var v, before := more[last], schedule + more[..last];
      assert schedule + more == before + [v];
      assert v in more && forall x :: x in more[..last] ==> x in more;
      ExecuteSnoc(c, before, v);
      ClaimIsStable(c, schedule, more[..last], w);
      ClaimSurvives(c, before, v, w);
    }
  }

  /** Only the owner moves the head of a queue, tail never decreases, and only the owner writes slots, at head; the
      exception is the reset by the end task, which finds the queue empty. */
  lemma QueuesAreOwned(c: Config, schedule: seq<nat>, v: nat, q: nat)
    requires c.Valid() && IsSchedule(c, schedule) && v < c.threads && q < c.threads
    ensures var s, s' := Execute(c, schedule), Step(c, Execute(c, schedule), v);
      && q < |s.queues| && q < |s'.queues|
      && if Clears(s.workers[v].pc, q) then s.queues[q].head == s.queues[q].tail
         else
           && (s'.queues[q].head != s.queues[q].head ==> v == q)
           && s.queues[q].tail <= s'.queues[q].tail <= s.queues[q].tail + 1
           && forall x :: SlotAt(s', q, x) != SlotAt(s, q, x) ==> v == q && x == s.queues[q].head
  {
    var h := ReachableInv(c, schedule);
    var s := Execute(c, schedule);
    StepFrame(c, s, h, v);
    if Clears(s.workers[v].pc, q) {
      ClearsIdle(c, s, h, v, q);
    } else {
      assert Touches(s.queues[q], Step(c, s, v).queues[q], q == v);
    }
  }

  /** No work is lost: a task all of whose inputs have finished on the current block and have run
      their activation code has started on that block or is at some place. */
  lemma NoTaskIsLost(c: Config, schedule: seq<nat>, t: int)
    requires c.Valid() && IsSchedule(c, schedule) && c.g.IsTask(t) && c.Releasable(t)
    requires Execute(c, schedule).index < c.full
    requires forall p :: p in c.g.pred[t] ==>
      && Finish(p, Execute(c, schedule).index) in Execute(c, schedule).log
      && forall w :: 0 <= w < c.threads ==> BusyTask(c, Execute(c, schedule).workers[w]) != p
    ensures var s := Execute(c, schedule);
      Start(t, s.index) in s.log || exists pl :: At(c, s, pl, t)
  {
    var h := ReachableInv(c, schedule);
    ReleasedTaskIsPlaced(c, Execute(c, schedule), h, t);
  }

  lemma ReleasedTaskIsPlaced(c: Config, s: State, h: History, t: int)
    requires Inv(c, s, h) && c.g.IsTask(t) && c.Releasable(t) && s.index < c.full
    requires forall p :: p in c.g.pred[t] ==>
      && Finish(p, s.index) in s.log
      && forall w :: 0 <= w < c.threads ==> BusyTask(c, s.workers[w]) != p
    ensures Start(t, s.index) in s.log || exists pl :: At(c, s, pl, t)
  {
    NeedsOf(c, t);
    forall p ensures p !in h.pend[t] {
      if p in c.g.pred[t] {
        InputHasActivated(c, s, h, p, t);
      }
    }
    if t in h.loc {
      assert At(c, s, h.loc[t], t);
    } else {
      assert Begun(h, t);
    }
  }

  lemma FinishedIsRetired(c: Config, s: State, h: History, p: int)
    requires c.Valid() && |h.pend| == |c.g.succ| && |s.workers| == c.threads && c.g.IsTask(p)
    requires Logged(c, s, h) && Places(c, s, h) && s.index == Offset(c, h.cyc)
    requires Finish(p, s.index) in s.log
    requires forall w :: 0 <= w < c.threads ==> BusyTask(c, s.workers[w]) != p
    ensures Retired(h, p)
  {
    var a :| 0 <= a < |s.log| && s.log[a] == Finish(p, s.index);
    assert Ended(s, h, p);
    assert p in h.loc ==> At(c, s, h.loc[p], p);
  }

  lemma InputHasActivated(c: Config, s: State, h: History, p: int, t: int)
    requires Inv(c, s, h) && !Complete(c, s) && c.g.IsTask(t) && p in c.g.pred[t]
    requires Finish(p, s.index) in s.log
    requires forall w :: 0 <= w < c.threads ==> BusyTask(c, s.workers[w]) != p
    ensures p !in h.pend[t]
  {
    assert c.g.IsTask(p) && t in c.g.succ[p];
    FinishedIsRetired(c, s, h, p);
    var j :| 0 <= j < |c.g.succ[p]| && c.g.succ[p][j] == t;
    assert Fired(c, s, h, p, j);
  }

  // ---------------------------------------------------------------------------------------
  // Progress
  // ---------------------------------------------------------------------------------------

  lemma Some(a: set<int>) returns (x: int)
    requires a != {}
    ensures x in a
  {
    if forall y :: y !in a {
      assert false;
    }
    x :| x in a;
  }

  /** An unreleased task has an input that is not retired. */
  lemma UnretiredInput(c: Config, s: State, h: History, t: int) returns (p: int)
    requires Inv(c, s, h) && c.g.IsTask(t) && c.Releasable(t) && h.pend[t] != {}
    ensures c.g.IsTask(p) && !Retired(h, p) && c.g.level[t] < c.g.level[p]
  {
    p := Some(h.pend[t]);
    NeedsOf(c, t);
    assert p in c.g.pred[t] && c.g.IsTask(p) && t in c.g.succ[p];
    var j :| 0 <= j < |c.g.succ[p]| && c.g.succ[p][j] == t;
    assert !Fired(c, s, h, p, j);
  }

  /** Going up from an unreleased task leads to a task that is at some place. */
  lemma {:induction false} SomethingIsPlaced(c: Config, s: State, h: History, t: int, top: nat)
    requires Inv(c, s, h) && c.AllReleasable() && c.g.IsTask(t) && !Retired(h, t)
    requires forall u :: c.g.IsTask(u) ==> c.g.level[u] <= top
    ensures exists u :: u in h.loc
    decreases top - c.g.level[t]
  {
    if t !in h.loc {
      var p := UnretiredInput(c, s, h, t);
      SomethingIsPlaced(c, s, h, p, top);
    }
  }

  lemma {:induction false} HighestLevel(g: Graph, n: nat) returns (top: nat)
    requires g.Valid() && n <= |g.succ|
    ensures forall u :: g.IsTask(u) && u < n ==> g.level[u] <= top
  {
    if n == 0 {
      top := 0;
    } else {
      top := HighestLevel(g, n - 1);
      if top < g.level[n - 1] {
        top := g.level[n - 1];
      }
    }
  }

  /** The scheduler never runs dry: as long as the buffer is not complete, some queue window is not
      empty or some worker has a task in its hands. */
  lemma NeverRunsDry(c: Config, schedule: seq<nat>)
    requires c.Valid() && IsSchedule(c, schedule) && c.AllReleasable()
    requires Execute(c, schedule).index < c.full
    ensures exists pl, t :: At(c, Execute(c, schedule), pl, t)
  {
    var h := ReachableInv(c, schedule);
    SomePlace(c, Execute(c, schedule), h);
  }

  lemma SomePlace(c: Config, s: State, h: History)
    requires Inv(c, s, h) && s.index < c.full && c.AllReleasable()
    ensures exists pl, t :: At(c, s, pl, t)
  {
    var top := HighestLevel(c.g, |c.g.succ|);
    SomethingIsPlaced(c, s, h, LAST_TASK_INDEX, top);
    var t :| t in h.loc;
    assert At(c, s, h.loc[t], t);
  }

  /** When the buffer is complete, every task has been executed on every block, nothing else has
      been executed, and no task is left anywhere. */
  lemma CompleteMeansAllDone(c: Config, schedule: seq<nat>)
    requires c.Valid() && IsSchedule(c, schedule) && 0 < c.full
    requires Execute(c, schedule).index >= c.full
    ensures var s := Execute(c, schedule);
      && (forall n: nat, t :: Offset(c, n) < c.full && c.g.IsTask(t) ==>
            Start(t, Offset(c, n)) in s.log && Finish(t, Offset(c, n)) in s.log)
      && (forall e :: e in s.log ==> c.g.IsTask(e.task) && exists n: nat :: e.index == Offset(c, n) < c.full)
      && (forall pl, t :: !At(c, s, pl, t))
  {
    var h := ReachableInv(c, schedule);
    AllDone(c, Execute(c, schedule), h);
    OnlyCycles(c, Execute(c, schedule), h);
  }

  lemma AllDone(c: Config, s: State, h: History)
    requires Inv(c, s, h) && Complete(c, s)
    ensures forall n: nat, t :: Offset(c, n) < c.full && c.g.IsTask(t) ==>
      Start(t, Offset(c, n)) in s.log && Finish(t, Offset(c, n)) in s.log
    ensures forall pl, t :: !At(c, s, pl, t)
  {
    forall n: nat, t | Offset(c, n) < c.full && c.g.IsTask(t)
      ensures Start(t, Offset(c, n)) in s.log && Finish(t, Offset(c, n)) in s.log
    {
      if n > h.cyc {
        Monotone(h.cyc + 1, n, c.vec);
        OffsetStep(c, h.cyc);
        assert false;
      }
      assert n == h.cyc ==> Begun(h, t) && Ended(s, h, t);
    }
  }

  lemma OnlyCycles(c: Config, s: State, h: History)
    requires Inv(c, s, h) && Complete(c, s)
    ensures forall e :: e in s.log ==> c.g.IsTask(e.task) && exists n: nat :: e.index == Offset(c, n) < c.full
  {
    forall e | e in s.log ensures c.g.IsTask(e.task) && exists n: nat :: e.index == Offset(c, n) < c.full {
      var a :| 0 <= a < |s.log| && s.log[a] == e;
      var n: nat :| n <= h.cyc && s.log[a].index == Offset(c, n);
      Monotone(n, h.cyc, c.vec);
    }
  }

  /** Events lie on the blocks of the buffer, also before it is complete. */
  lemma EventsOnBlocks(c: Config, s: State, h: History, e: Event) returns (n: nat)
    requires Inv(c, s, h) && 0 < c.full && e in s.log
    ensures c.g.IsTask(e.task) && e.index == Offset(c, n) < c.full
  {
    var a :| 0 <= a < |s.log| && s.log[a] == e;
    n :| n <= h.cyc && s.log[a].index == Offset(c, n);
    Monotone(n, h.cyc, c.vec);
  }

  /** A number for every event of the first blocks. */
  ghost function Code(c: Config, e: Event): int
    requires c.Valid()
  {
    2 * ((e.index / c.vec) * (|c.g.succ| - 1) + (e.task - 1)) + if e.Start? then 0 else 1
  }

  lemma BlockNumber(c: Config, n: nat, blocks: nat)
    requires c.Valid() && Offset(c, n) < c.full <= Offset(c, blocks)
    ensures Offset(c, n) / c.vec == n < blocks
  {
    if blocks <= n {
      Monotone(blocks, n, c.vec);
      assert false;
    }
    assert n * c.vec == c.vec * n + 0;
    DivMod(n * c.vec, c.vec, n, 0);
  }

  lemma CodeAt(c: Config, e: Event, n: nat, blocks: nat)
    requires c.Valid() && c.g.IsTask(e.task) && e.index == Offset(c, n) < c.full <= Offset(c, blocks)
    ensures n < blocks && Code(c, e) == 2 * (n * (|c.g.succ| - 1) + (e.task - 1)) + if e.Start? then 0 else 1
    ensures 0 <= Code(c, e) < 2 * (blocks * (|c.g.succ| - 1))
  {
    BlockNumber(c, n, blocks);
    CellRange(n, blocks, e.task - 1, |c.g.succ| - 1);
  }

  lemma CodeRange(c: Config, s: State, h: History, e: Event, blocks: nat)
    requires Inv(c, s, h) && 0 < c.full <= Offset(c, blocks) && e in s.log
    ensures 0 <= Code(c, e) < 2 * (blocks * (|c.g.succ| - 1))
  {
    var n := EventsOnBlocks(c, s, h, e);
    CodeAt(c, e, n, blocks);
  }

  lemma CellRange(n: nat, blocks: nat, x: int, tasks: nat)
    requires n < blocks && 0 <= x < tasks
    ensures 0 <= 2 * (n * tasks + x) && 2 * (n * tasks + x) + 1 < 2 * (blocks * tasks)
  {
    Monotone(n + 1, blocks, tasks);
    Monotone(0, n, tasks);
    assert (n + 1) * tasks == n * tasks + tasks;
  }

  lemma SameCode(c: Config, e: Event, n: nat, e': Event, n': nat, blocks: nat)
    requires c.Valid() && c.g.IsTask(e.task) && e.index == Offset(c, n) < c.full <= Offset(c, blocks)
    requires c.g.IsTask(e'.task) && e'.index == Offset(c, n') < c.full && Code(c, e) == Code(c, e')
    ensures e == e'
  {
    CodeAt(c, e, n, blocks);
    CodeAt(c, e', n', blocks);
    SameCell(n, n', e.task - 1, e'.task - 1, |c.g.succ| - 1, if e.Start? then 0 else 1, if e'.Start? then 0 else 1);
  }

  lemma CodeInjective(c: Config, s: State, h: History, e: Event, e': Event, blocks: nat)
    requires Inv(c, s, h) && 0 < c.full <= Offset(c, blocks) && e in s.log && e' in s.log
    requires Code(c, e) == Code(c, e')
    ensures e == e'
  {
    var n := EventsOnBlocks(c, s, h, e);
    var n' := EventsOnBlocks(c, s, h, e');
    SameCode(c, e, n, e', n', blocks);
  }

  lemma SameCell(n: nat, n': nat, x: nat, x': nat, tasks: nat, b: int, b': int)
    requires x < tasks && x' < tasks && 0 <= b <= 1 && 0 <= b' <= 1
    requires 2 * (n * tasks + x) + b == 2 * (n' * tasks + x') + b'
    ensures n == n' && x == x' && b == b'
  {
    assert b == b';
    Unfold(n, n', x, x', tasks);
  }

  /** The work is bounded: however the workers are scheduled, a buffer of so many blocks takes no more than one
      start and one finish for every task and block. */
  lemma BoundedWork(c: Config, schedule: seq<nat>, blocks: nat)
    requires c.Valid() && IsSchedule(c, schedule) && 0 < c.full <= Offset(c, blocks)
    ensures |Execute(c, schedule).log| <= 2 * (blocks * (|c.g.succ| - 1))
  {
    var h := ReachableInv(c, schedule);
    ExecutedOnceAfterInputs(c, schedule);
    var s := Execute(c, schedule);
    var log, top := s.log, 2 * (blocks * (|c.g.succ| - 1));
    var codes := seq(|log|, i requires 0 <= i < |log| => Code(c, log[i]));
    forall i | 0 <= i < |codes| ensures 0 <= codes[i] < top {
      CodeRange(c, s, h, log[i], blocks);
    }
    forall i, j | 0 <= i < j < |codes| ensures codes[i] != codes[j] {
      if codes[i] == codes[j] {
        CodeInjective(c, s, h, log[i], log[j], blocks);
      }
    }
    assert top >= 0 by { Monotone(0, blocks, |c.g.succ| - 1); }
    DistinctBound(codes, 0, top);
  }

  /** A worker leaves its loop only when the buffer is complete, and then without a task. */
  lemma ExitsWithEmptyHands(c: Config, schedule: seq<nat>, w: nat)
    requires c.Valid() && IsSchedule(c, schedule) && 0 < c.full && w < c.threads
    requires Execute(c, schedule).workers[w].pc.Exited?
    ensures Execute(c, schedule).index >= c.full && Execute(c, schedule).workers[w].tasknum == 0
  {
    ExitedMeansComplete(c, schedule, w);
    CompleteMeansAllDone(c, schedule);
    var s := Execute(c, schedule);
    assert s.workers[w].tasknum != 0 ==> At(c, s, Carried(w), s.workers[w].tasknum);
  }

  lemma {:induction false} ExitedMeansComplete(c: Config, schedule: seq<nat>, w: nat)
    requires c.Valid() && IsSchedule(c, schedule) && w < c.threads
    requires Execute(c, schedule).workers[w].pc.Exited?
    ensures Execute(c, schedule).index >= c.full
  {
    var last := |schedule| - 1;
    var s := Execute(c, schedule[..last]);
    if s.workers[w].pc.Exited? {
      ExitedMeansComplete(c, schedule[..last], w);
    }
    StepOnlyOwn(c, s, schedule[last]);
  }

  /** The step from `s` to `s'` by worker `w` changes no other worker's registers, does not move the
      index back and does not leave the loop. */
  ghost predicate Own(s: State, s': State, w: nat) {
    && |s'.workers| == |s.workers| && w < |s.workers|
    && (forall v :: 0 <= v < |s.workers| && v != w ==> s'.workers[v] == s.workers[v])
    && s'.index >= s.index
    && (s'.workers[w].pc.Exited? ==> s.workers[w].pc.Exited?)
  }

  lemma ActionOnlyOwn(c: Config, s: State, w: nat, t: int, k: nat)
    requires c.Valid() && w < |s.workers| && c.g.IsTask(t) && k < c.g.Length(t) && |s.counters| == |c.g.succ|
    ensures Own(s, StepAction(c, s, w, t, k), w)
  {
  }

  lemma PushOnlyOwn(c: Config, s: State, w: nat, t: int, k: nat, m: Micro)
    requires c.Valid() && w < |s.workers| && w < |s.queues| && c.g.IsTask(t) && k < c.g.Length(t)
    requires (m.ToPush? || m.Wrote? || m.HeadRead?) && s.workers[w].pc.Act?
    ensures Own(s, StepPush(c, s, w, t, k, m), w)
  {
  }

  lemma PopOnlyOwn(c: Config, s: State, w: nat, t: int, k: nat, m: Micro)
    requires c.Valid() && w < |s.workers| && w < |s.queues| && c.g.IsTask(t) && k < c.g.Length(t)
    requires (m.PopStart? || m.PopRead? || m.PopWon?) && s.workers[w].pc.Act?
    ensures Own(s, StepPop(c, s, w, t, k, m), w)
  {
  }

  lemma StealOnlyOwn(c: Config, s: State, w: nat)
    requires w < |s.workers| && |s.queues| == c.threads
    requires s.workers[w].pc.StealSnap? || s.workers[w].pc.StealRead? || s.workers[w].pc.StealWon?
    ensures Own(s, StepSteal(c, s, w), w)
  {
  }

  lemma InitOnlyOwn(c: Config, s: State, w: nat)
    requires c.Valid() && w < |s.workers| && w < |s.queues| && |s.queues| == c.threads && |s.counters| == |c.g.succ|
    requires IsInit(s.workers[w].pc)
    ensures Own(s, StepInit(c, s, w), w)
  {
  }

  lemma StepOnlyOwn(c: Config, s: State, w: nat)
    requires c.Valid() && w < |s.workers|
    ensures Own(s, Step(c, s, w), w) || (s.workers[w].pc.Top? && s.index >= c.full && Step(c, s, w) == Goto(s, w, Exited))
  {
    if !(|s.queues| <= w || |s.queues| != c.threads || |s.counters| != |c.g.succ|) {
      match s.workers[w].pc {
        case Act(t, k, m) =>
          if c.g.IsTask(t) && k < c.g.Length(t) {
            if m.Begin? {
              ActionOnlyOwn(c, s, w, t, k);
            } else if m.ToPush? || m.Wrote? || m.HeadRead? {
              PushOnlyOwn(c, s, w, t, k, m);
            } else {
              PopOnlyOwn(c, s, w, t, k, m);
            }
          }
        case StealSnap(_) => StealOnlyOwn(c, s, w);
        case StealRead(_, _, _) => StealOnlyOwn(c, s, w);
        case StealWon(_, _) => StealOnlyOwn(c, s, w);
        case InitCount(_) => InitOnlyOwn(c, s, w);
        case InitSlots(_, _) => InitOnlyOwn(c, s, w);
        case InitCounter(_) => InitOnlyOwn(c, s, w);
        case InitPush(_, _) => InitOnlyOwn(c, s, w);
        case _ =>
      }
    }
  }
}
