/** The end task: it runs only when every other task has been executed and has activated all its
    successors, and it then prepares the next cycle. */
module WorkStealingReset {
  import opened Sequences
  import opened TaskGraph
  import opened WorkStealing
  import opened WorkStealingInvariant
  import opened WorkStealingSteps
  import opened WorkStealingMoves
  import opened WorkStealingCycle

  /** A task that is not retired has a successor it has not activated yet. */
  lemma UnfiredSuccessor(c: Config, s: State, h: History, t: int) returns (j: nat)
    requires Inv(c, s, h) && c.g.IsTask(t) && t != LAST_TASK_INDEX && !Retired(h, t)
    ensures j < |c.g.succ[t]| && !Fired(c, s, h, t, j)
  {
    j := LastPositionIsReached(c.g, t);
    if t in h.loc && h.loc[t].Busy? {
      BusyWorker(c, s, h, t);
    }
  }

  /** As long as some task is not retired the end task is not released. */
  lemma {:induction false} EndTaskIsLast(c: Config, s: State, h: History, t: int)
    requires Inv(c, s, h) && c.g.IsTask(t) && t != LAST_TASK_INDEX && !Retired(h, t)
    ensures h.pend[LAST_TASK_INDEX] != {}
    decreases c.g.level[t]
  {
    var j := UnfiredSuccessor(c, s, h, t);
    var u := c.g.succ[t][j];
    assert t in h.pend[u];
    if u != LAST_TASK_INDEX {
      EndTaskIsLast(c, s, h, u);
    }
  }

  /** Worker `w` is about to run the end task. */
  ghost predicate RunsLast(c: Config, s: State, h: History, w: nat) {
    Inv(c, s, h) && w < c.threads && s.workers[w].pc.Switch? && s.workers[w].tasknum == LAST_TASK_INDEX
  }

  /** The state after the index update of the end task. */
  function AfterLast(c: Config, s: State, w: nat): State
    requires w < |s.workers|
  {
    var next := if s.index + c.vec < c.full then Worker(LAST_TASK_INDEX, InitCount(0)) else Worker(0, Top);
    s.(workers := s.workers[w := next], index := s.index + c.vec, log := LastLog(s))
  }

  function LastLog(s: State): seq<Event> {
    s.log + [Start(LAST_TASK_INDEX, s.index), Finish(LAST_TASK_INDEX, s.index)]
  }

  lemma LastFacts(c: Config, s: State, h: History, w: nat)
    requires RunsLast(c, s, h, w)
    ensures h.loc == map[LAST_TASK_INDEX := Carried(w)]
    ensures forall t :: c.g.IsTask(t) && t != LAST_TASK_INDEX ==> Retired(h, t)
    ensures forall v :: 0 <= v < c.threads && IsInit(s.workers[v].pc) ==> Refilled(c, s.workers[v].pc)
    ensures 0 <= h.initer ==> s.workers[h.initer].pc.InitPush?
    ensures forall q :: 0 <= q < c.threads ==> s.queues[q].head == s.queues[q].tail
    ensures forall v :: 0 <= v < c.threads && v != w ==>
      !s.workers[v].pc.Run? && (s.workers[v].pc.Switch? ==> s.workers[v].tasknum == 0)
  {
    StartFacts(c, s, h, w);
    forall t | c.g.IsTask(t) && t != LAST_TASK_INDEX ensures Retired(h, t) {
      if !Retired(h, t) {
        EndTaskIsLast(c, s, h, t);
      }
    }
    assert forall t :: t in h.loc <==> t == LAST_TASK_INDEX;
    assert h.loc == map[LAST_TASK_INDEX := Carried(w)];
    forall v | 0 <= v < c.threads && IsInit(s.workers[v].pc) ensures Refilled(c, s.workers[v].pc) {
      LastInit(c, s, h, w, v);
    }
    forall q | 0 <= q < c.threads ensures s.queues[q].head == s.queues[q].tail {
      LastQueue(c, s, h, w, q);
    }
    forall v | 0 <= v < c.threads && v != w
      ensures !s.workers[v].pc.Run? && (s.workers[v].pc.Switch? ==> s.workers[v].tasknum == 0)
    {
      LastIdle(c, s, h, w, v);
    }
  }

  lemma LastIdle(c: Config, s: State, h: History, w: nat, v: nat)
    requires Inv(c, s, h) && w < c.threads && v < c.threads && v != w
    requires h.loc == map[LAST_TASK_INDEX := Carried(w)]
    ensures !s.workers[v].pc.Run? && (s.workers[v].pc.Switch? ==> s.workers[v].tasknum == 0)
  {
    assert WorkerOk(c, s, v);
    var t := s.workers[v].tasknum;
    assert s.workers[v].pc.Run? ==> At(c, s, Busy(v), t);
    assert s.workers[v].pc.Switch? && t != 0 ==> At(c, s, Carried(v), t);
  }

  lemma LastInit(c: Config, s: State, h: History, w: nat, v: nat)
    requires Inv(c, s, h) && w < c.threads && v < c.threads && IsInit(s.workers[v].pc)
    requires h.loc == map[LAST_TASK_INDEX := Carried(w)]
    ensures Refilled(c, s.workers[v].pc)
  {
    assert LAST_TASK_INDEX in h.loc;
    assert WorkerOk(c, s, v);
    if !Refilled(c, s.workers[v].pc) {
      var k := FirstUnpushed(s.workers[v].pc);
      assert c.g.ready[k] in c.g.ready;
      assert At(c, s, Unpushed(v, k), c.g.ready[k]);
    }
  }

  lemma LastQueue(c: Config, s: State, h: History, w: nat, q: nat)
    requires Inv(c, s, h) && w < c.threads && q < c.threads
    requires h.loc == map[LAST_TASK_INDEX := Carried(w)]
    ensures s.queues[q].head == s.queues[q].tail
  {
    var pos := s.queues[q].tail;
    if pos < s.queues[q].head {
      ClaimedSlotIsTask(c, s, h, q, pos);
      assert At(c, s, Slot(q, pos), SlotAt(s, q, pos));
    }
  }

  lemma LastOrdered(c: Config, s: State, h: History, w: nat)
    requires RunsLast(c, s, h, w)
    ensures Ordered(c.g, LastLog(s))
  {
    StartFacts(c, s, h, w);
    var t := LAST_TASK_INDEX;
    forall p | p in c.g.pred[t] ensures Finish(p, s.index) in s.log {
      InputsFinished(c, s, h, t, p);
    }
    OrderedAppend(c.g, s.log, Start(t, s.index));
    OrderedAppend(c.g, s.log + [Start(t, s.index)], Finish(t, s.index));
    assert LastLog(s) == s.log + [Start(t, s.index)] + [Finish(t, s.index)];
  }

  /** After the end task everything of the cycle is in the log. */
  lemma LastLogged(c: Config, s: State, h: History, w: nat, t: int)
    requires RunsLast(c, s, h, w) && c.g.IsTask(t)
    ensures Start(t, Offset(c, h.cyc)) in LastLog(s) && Finish(t, Offset(c, h.cyc)) in LastLog(s)
  {
    StartFacts(c, s, h, w);
    if t == LAST_TASK_INDEX {
      var log := LastLog(s);
      assert log[|s.log|] == Start(t, s.index) && log[|s.log| + 1] == Finish(t, s.index);
    } else {
      LastFacts(c, s, h, w);
      assert Begun(h, t) && Ended(s, h, t);
    }
  }

  lemma OffsetStep(c: Config, cyc: nat)
    ensures Offset(c, cyc + 1) == Offset(c, cyc) + c.vec
  {
  }

  /** The log of the finished cycle, seen from that cycle or from the next one. */
  lemma PastKept(c: Config, s: State, h: History, s': State, h': History)
    requires c.g.IsTask(LAST_TASK_INDEX) && PastCycles(c, s, h) && s'.log == LastLog(s) && s.index == Offset(c, h.cyc)
    requires h'.cyc == h.cyc || h'.cyc == h.cyc + 1
    requires forall t :: c.g.IsTask(t) ==> Start(t, Offset(c, h.cyc)) in s'.log && Finish(t, Offset(c, h.cyc)) in s'.log
    ensures PastCycles(c, s', h')
  {
    forall n: nat, t | n < h'.cyc && c.g.IsTask(t)
      ensures Start(t, Offset(c, n)) in s'.log && Finish(t, Offset(c, n)) in s'.log
    {
      if n < h.cyc {
        assert Start(t, Offset(c, n)) in s.log && Finish(t, Offset(c, n)) in s.log;
      }
    }
    forall a | 0 <= a < |s'.log| ensures exists n: nat :: n <= h'.cyc && s'.log[a].index == Offset(c, n) {
      if a < |s.log| {
        var n: nat :| n <= h.cyc && s.log[a].index == Offset(c, n);
        assert n <= h'.cyc && s'.log[a].index == Offset(c, n);
      } else {
        assert h.cyc <= h'.cyc && s'.log[a].index == Offset(c, h.cyc);
      }
    }
  }

  lemma LastPast(c: Config, s: State, h: History, w: nat, s': State, h': History)
    requires RunsLast(c, s, h, w) && s'.log == LastLog(s)
    requires h'.cyc == h.cyc || h'.cyc == h.cyc + 1
    ensures PastCycles(c, s', h')
  {
    StartFacts(c, s, h, w);
    forall t | c.g.IsTask(t) ensures Start(t, Offset(c, h.cyc)) in s'.log && Finish(t, Offset(c, h.cyc)) in s'.log {
      LastLogged(c, s, h, w, t);
    }
    PastKept(c, s, h, s', h');
  }

  /** The other workers do not notice. */
  lemma LastWorkers(c: Config, s: State, h: History, w: nat, h': History)
    requires RunsLast(c, s, h, w)
    requires h'.initer == if s.index + c.vec < c.full then w else h.initer
    ensures Workers(c, AfterLast(c, s, w), h')
  {
    LastFacts(c, s, h, w);
    var s' := AfterLast(c, s, w);
    forall v | 0 <= v < c.threads ensures WorkerOk(c, s', v) {
      assert WorkerOk(c, s, v);
      if v != w {
        IdleWorkerOk(c, s, s', v);
      }
    }
    forall v | 0 <= v < c.threads && h'.initer == v ensures IsInit(s'.workers[v].pc) {}
  }

  /** A worker without a task does not depend on the index. */
  lemma IdleWorkerOk(c: Config, s: State, s': State, v: nat)
    requires c.Valid() && |s.queues| == |s.workers| == |s'.workers| == c.threads && v < c.threads
    requires s'.queues == s.queues && s'.workers[v] == s.workers[v] && WorkerOk(c, s, v)
    requires !s.workers[v].pc.Run? && (s.workers[v].pc.Switch? ==> s.workers[v].tasknum == 0)
    ensures WorkerOk(c, s', v)
  {
    if s.workers[v].pc.Act? {
      assert MicroOk(c, s, v);
      assert MicroOk(c, s', v);
    }
  }

  // ---------------------------------------------------------------------------------------
  // The last cycle of the buffer
  // ---------------------------------------------------------------------------------------

  lemma LastCycleStep(c: Config, s: State, h: History, w: nat)
    requires RunsLast(c, s, h, w) && s.index + c.vec >= c.full
    ensures Inv(c, AfterLast(c, s, w), h.(loc := map[]))
  {
    var s', h' := AfterLast(c, s, w), h.(loc := map[]);
    assert Places(c, s', h') by { LastCyclePlaces(c, s, h, w); }
    assert Workers(c, s', h') by { LastWorkers(c, s, h, w, h'); }
    assert Edges(c, s', h') && Released(c, h') && Index(c, s', h') by { LastCycleEdges(c, s, h, w); }
    assert Logged(c, s', h') by { LastCycleLogged(c, s, h, w); }
    assert PastCycles(c, s', h') by { LastPast(c, s, h, w, s', h'); }
    assert Ordered(c.g, s'.log) by { LastOrdered(c, s, h, w); }
    assert Counters(c, s', h') && Resetting(c, s', h') && Prefixes(c, s', h') by { LastCycleRest(c, s, h, w); }
  }

  lemma LastCyclePlaces(c: Config, s: State, h: History, w: nat)
    requires RunsLast(c, s, h, w) && s.index + c.vec >= c.full
    ensures Places(c, AfterLast(c, s, w), h.(loc := map[]))
  {
    LastFacts(c, s, h, w);
    var s' := AfterLast(c, s, w);
    forall p, x ensures !At(c, s', p, x) {
      assert At(c, s, p, x) ==> p == Carried(w);
    }
  }

  lemma LastCycleEdges(c: Config, s: State, h: History, w: nat)
    requires RunsLast(c, s, h, w) && s.index + c.vec >= c.full
    ensures Edges(c, AfterLast(c, s, w), h.(loc := map[])) && Released(c, h.(loc := map[]))
    ensures Index(c, AfterLast(c, s, w), h.(loc := map[]))
  {
    assert WorkerOk(c, s, w);
    StartFacts(c, s, h, w);
    LastFacts(c, s, h, w);
    var s', h' := AfterLast(c, s, w), h.(loc := map[]);
    forall p, j | c.g.IsTask(p) && 0 <= j < |c.g.succ[p]|
      ensures Fired(c, s', h', p, j) && p !in h'.pend[c.g.succ[p][j]]
    {
      assert Fired(c, s, h, p, j);
    }
  }

  lemma LastCycleLogged(c: Config, s: State, h: History, w: nat)
    requires RunsLast(c, s, h, w) && s.index + c.vec >= c.full
    ensures Logged(c, AfterLast(c, s, w), h.(loc := map[]))
  {
    StartFacts(c, s, h, w);
    LastFacts(c, s, h, w);
    var s', h' := AfterLast(c, s, w), h.(loc := map[]);
    forall t | c.g.IsTask(t) ensures Retired(h', t) {}
    forall t | c.g.IsTask(t) ensures Start(t, Offset(c, h.cyc)) in s'.log && Finish(t, Offset(c, h.cyc)) in s'.log {
      LastLogged(c, s, h, w, t);
    }
  }

  lemma LastCycleRest(c: Config, s: State, h: History, w: nat)
    requires RunsLast(c, s, h, w) && s.index + c.vec >= c.full
    ensures Counters(c, AfterLast(c, s, w), h.(loc := map[]))
    ensures Resetting(c, AfterLast(c, s, w), h.(loc := map[])) && Prefixes(c, AfterLast(c, s, w), h.(loc := map[]))
  {
    LastFacts(c, s, h, w);
    var s', h' := AfterLast(c, s, w), h.(loc := map[]);
    CountersMoved(c, s, h, s', h'.loc);
    forall q | 0 <= q < |s.queues| ensures Fresh(s', h', q) <==> Fresh(s, h, q) {}
  }

  // ---------------------------------------------------------------------------------------
  // The next cycle
  // ---------------------------------------------------------------------------------------

  ghost function IndexIn(s: seq<int>, x: int): (k: nat)
    requires x in s
    ensures k < |s| && s[k] == x
  {
    var k :| 0 <= k < |s| && s[k] == x;
    k
  }

  ghost function NextHistory(c: Config, w: nat, cyc: nat): History {
    History(c.AllNeeds(), map t | t in c.g.ready :: Unpushed(w, IndexIn(c.g.ready, t)), w, cyc + 1)
  }

  lemma NextPlaces(c: Config, s: State, h: History, w: nat)
    requires RunsLast(c, s, h, w) && s.index + c.vec < c.full
    ensures Places(c, AfterLast(c, s, w), NextHistory(c, w, h.cyc))
  {
    var s', h' := AfterLast(c, s, w), NextHistory(c, w, h.cyc);
    forall p, x | At(c, s', p, x) ensures x in h'.loc && h'.loc[x] == p {
      NextPlace(c, s, h, w, p, x);
    }
    forall x | x in h'.loc ensures At(c, s', h'.loc[x], x) {
      assert c.g.IsTask(x);
    }
  }

  lemma NextPlace(c: Config, s: State, h: History, w: nat, p: Place, x: int)
    requires RunsLast(c, s, h, w) && s.index + c.vec < c.full && At(c, AfterLast(c, s, w), p, x)
    ensures x in c.g.ready && p == Unpushed(w, IndexIn(c.g.ready, x))
  {
    if p.Unpushed? && p.w == w {
      assert c.g.ready[p.k] == x;
    } else {
      LastFacts(c, s, h, w);
      assert At(c, s, p, x);
      assert false;
    }
  }

  lemma NextEdges(c: Config, s: State, w: nat, cyc: nat)
    requires c.Valid()
    ensures var h := NextHistory(c, w, cyc);
      && Released(c, h) && Edges(c, s, h)
      && forall t :: c.g.IsTask(t) ==> !Begun(h, t) && !Ended(s, h, t)
  {
    var h := NextHistory(c, w, cyc);
    forall p, j | c.g.IsTask(p) && 0 <= j < |c.g.succ[p]| ensures p in h.pend[c.g.succ[p][j]] && !Fired(c, s, h, p, j) {
      assert p in c.g.ready <==> c.g.pred[p] == {};
    }
    forall t | c.g.IsTask(t) ensures !Begun(h, t) && !Ended(s, h, t) {
      assert t in c.g.ready <==> c.g.pred[t] == {};
    }
  }

  lemma NextLogged(c: Config, s: State, h: History, w: nat)
    requires RunsLast(c, s, h, w) && s.index + c.vec < c.full
    ensures Logged(c, AfterLast(c, s, w), NextHistory(c, w, h.cyc))
    ensures Index(c, AfterLast(c, s, w), NextHistory(c, w, h.cyc))
  {
    StartFacts(c, s, h, w);
    NextEdges(c, AfterLast(c, s, w), w, h.cyc);
    NextLog(c, s, h, AfterLast(c, s, w), NextHistory(c, w, h.cyc));
    NextIndex(c, AfterLast(c, s, w), w, h.cyc);
  }

  lemma NextIndex(c: Config, s': State, w: nat, cyc: nat)
    requires c.Valid() && s'.index == Offset(c, cyc) + c.vec < c.full
    requires Released(c, NextHistory(c, w, cyc)) && !Begun(NextHistory(c, w, cyc), LAST_TASK_INDEX) && cyc * c.vec >= 0
    ensures Index(c, s', NextHistory(c, w, cyc))
  {
    OffsetStep(c, cyc);
  }

  /** The events of the old cycle lie before the new one, where nothing has begun. */
  lemma NextLog(c: Config, s: State, h: History, s': State, h': History)
    requires c.Valid() && |h.pend| == |h'.pend| == |c.g.succ| && Logged(c, s, h) && s.index == Offset(c, h.cyc)
    requires s'.log == LastLog(s) && h'.cyc == h.cyc + 1
    requires forall t :: c.g.IsTask(t) ==> !Begun(h', t) && !Ended(s', h', t)
    ensures Logged(c, s', h')
  {
    OffsetStep(c, h.cyc);
    forall a | 0 <= a < |s'.log| ensures c.g.IsTask(s'.log[a].task) && s'.log[a].index < Offset(c, h'.cyc) {
      if a < |s.log| {
        assert s'.log[a] == s.log[a];
      }
    }
  }

  /** The end task opens the next cycle: every counter is stale, every queue is empty and every
      ready task waits to be pushed. */
  lemma NextCycleStep(c: Config, s: State, h: History, w: nat)
    requires RunsLast(c, s, h, w) && s.index + c.vec < c.full
    ensures Inv(c, AfterLast(c, s, w), NextHistory(c, w, h.cyc))
  {
    var s', h' := AfterLast(c, s, w), NextHistory(c, w, h.cyc);
    assert Places(c, s', h') by { NextPlaces(c, s, h, w); }
    assert Released(c, h') && Edges(c, s', h') by { NextEdges(c, s', w, h.cyc); }
    assert Logged(c, s', h') && Index(c, s', h') by { NextLogged(c, s, h, w); }
    assert PastCycles(c, s', h') by { LastPast(c, s, h, w, s', h'); }
    assert Ordered(c.g, s'.log) by { LastOrdered(c, s, h, w); }
    assert Workers(c, s', h') by { LastWorkers(c, s, h, w, h'); }
    assert Counters(c, s', h') && Resetting(c, s', h') && Prefixes(c, s', h') by { NextRest(c, s, h, w); }
  }

  lemma NextRest(c: Config, s: State, h: History, w: nat)
    requires RunsLast(c, s, h, w) && s.index + c.vec < c.full
    ensures var s', h' := AfterLast(c, s, w), NextHistory(c, w, h.cyc);
      Counters(c, s', h') && Resetting(c, s', h') && Prefixes(c, s', h')
  {
    var s', h' := AfterLast(c, s, w), NextHistory(c, w, h.cyc);
    forall t | c.g.IsTask(t) && |c.g.pred[t]| > 1 ensures Stale(c, s', h', t) {
      assert c.Multi()[0..] == c.Multi();
    }
    LastFacts(c, s, h, w);
  }

  // ---------------------------------------------------------------------------------------
  // Resetting counters and queues
  // ---------------------------------------------------------------------------------------

  /** Worker `w` resets counters or queues. */
  ghost predicate Resets(c: Config, s: State, h: History, w: nat) {
    && Inv(c, s, h) && w < c.threads && IsInit(s.workers[w].pc) && !s.workers[w].pc.InitPush?
  }

  lemma NothingMoves(c: Config, s: State, h: History, v: nat)
    requires c.Valid() && Places(c, s, h) && v < |s.workers| && forall t :: t in h.loc ==> h.loc[t].Unpushed?
    ensures PushedTask(c, s.workers[v]) == 0 && ClaimedTask(s, v) == 0
  {
    var t, u := PushedTask(c, s.workers[v]), ClaimedTask(s, v);
    assert !At(c, s, Pushing(v), t) && !At(c, s, Claimed(v), u);
  }

  /** Nobody else is inside a push or holds a claim. */
  lemma ResetFacts(c: Config, s: State, h: History, w: nat)
    requires Resets(c, s, h, w)
    ensures h.initer == w && h.pend == c.AllNeeds()
    ensures forall v :: 0 <= v < c.threads ==> PushedTask(c, s.workers[v]) == 0 && ClaimedTask(s, v) == 0
    ensures forall v :: 0 <= v < c.threads && v != w && IsInit(s.workers[v].pc) ==> Refilled(c, s.workers[v].pc)
  {
    forall v | 0 <= v < c.threads ensures PushedTask(c, s.workers[v]) == 0 && ClaimedTask(s, v) == 0 {
      NothingMoves(c, s, h, v);
    }
  }

  /** The workers do not depend on the contents of a queue that is being reset. */
  lemma ResetWorkerOk(c: Config, s: State, h: History, w: nat, s': State, v: nat)
    requires Resets(c, s, h, w)
    requires |s'.queues| == |s'.workers| == c.threads && v < c.threads && v != w && s'.workers[v] == s.workers[v]
    requires s'.index == s.index
    ensures WorkerOk(c, s', v)
  {
    ResetFacts(c, s, h, w);
    assert WorkerOk(c, s, v);
    if s.workers[v].pc.Act? {
      assert MicroOk(c, s, v);
      assert MicroOk(c, s', v);
    }
  }

  lemma ResetPlace(c: Config, s: State, h: History, w: nat, s': State, wk: Worker, p: Place, x: int)
    requires Resets(c, s, h, w)
    requires s'.workers == s.workers[w := wk] && |s'.queues| == c.threads
    requires IsInit(wk.pc) && FirstUnpushed(wk.pc) == 0
    requires forall q :: 0 <= q < c.threads ==> s'.queues[q] == s.queues[q] || s'.queues[q].head == s'.queues[q].tail
    ensures At(c, s', p, x) <==> At(c, s, p, x)
  {
    ResetFacts(c, s, h, w);
    if p.Slot? {
      assert At(c, s, p, x) ==> x in h.loc;
    } else if p.Claimed? && p.w < c.threads {
      assert WorkerOk(c, s, p.w);
    }
  }

  ghost predicate ResetsTo(c: Config, s: State, h: History, w: nat, s': State)
    requires Resets(c, s, h, w)
  {
    && |s'.workers| == c.threads && |s'.queues| == c.threads && |s'.counters| == |c.g.succ| && !s'.fault
    && s'.workers == s.workers[w := s'.workers[w]] && s'.workers[w].tasknum == s.workers[w].tasknum
    && IsInit(s'.workers[w].pc) && FirstUnpushed(s'.workers[w].pc) == 0
    && s'.log == s.log && s'.index == s.index && s'.traffic == s.traffic
    && (forall q :: 0 <= q < c.threads ==>
          s'.queues[q] == s.queues[q]
          || (|s'.queues[q].slots| == |c.g.succ| && 0 <= s'.queues[q].head == s'.queues[q].tail < |c.g.succ|))
    && WorkerOk(c, s', w)
  }

  lemma ResetKeeps(c: Config, s: State, h: History, w: nat, s': State)
    requires Resets(c, s, h, w) && ResetsTo(c, s, h, w, s')
    ensures Shape(c, s', h) && Places(c, s', h) && Progress(c, s', h) && Workers(c, s', h)
  {
    ResetFacts(c, s, h, w);
    assert Places(c, s', h) by {
      forall p, x ensures At(c, s', p, x) <==> At(c, s, p, x) {
        ResetPlace(c, s, h, w, s', s'.workers[w], p, x);
      }
      PlacesKept(c, s, h, s');
    }
    assert Progress(c, s', h) by {
      OneMoves(c, s, w, s'.workers[w], s');
      BusyProgressKept(c, s, h, s', h);
    }
    assert Workers(c, s', h) by {
      forall v | 0 <= v < c.threads ensures WorkerOk(c, s', v) {
        if v != w {
          ResetWorkerOk(c, s, h, w, s', v);
        }
      }
    }
  }

  /** TaskGraph::InitTask. */
  function AfterInitCount(c: Config, s: State, w: nat, k: nat): State
    requires c.Valid() && w < |s.workers| && |s.counters| == |c.g.succ|
  {
    if |c.Multi()| <= k then s.(workers := s.workers[w := Worker(s.workers[w].tasknum, InitSlots(0, 0))])
    else
      var t := c.Multi()[k];
      assert t in c.Multi();
      s.(counters := s.counters[t := |c.g.pred[t]|], workers := s.workers[w := Worker(s.workers[w].tasknum, InitCount(k + 1))])
  }

  lemma InitCountStep(c: Config, s: State, h: History, w: nat, s': State)
    requires Resets(c, s, h, w) && s.workers[w].pc.InitCount? && s' == AfterInitCount(c, s, w, s.workers[w].pc.k)
    ensures Inv(c, s', h)
  {
    ResetFacts(c, s, h, w);
    assert WorkerOk(c, s, w);
    InitCountResets(c, s, h, w, s');
    ResetKeeps(c, s, h, w, s');
    InitCountCounters(c, s, h, w, s');
    NothingFresh(c, s, h, w, s');
  }

  lemma NothingFresh(c: Config, s: State, h: History, w: nat, s': State)
    requires w < |s.workers| && h.initer == w && s.workers[w].pc.InitCount? && |h.pend| == |c.g.succ|
    requires |s'.workers| == |s.workers| && s'.workers == s.workers[w := s'.workers[w]] && s'.queues == s.queues
    requires forall q :: 0 <= q < |s.queues| ==> 0 <= s.queues[q].head <= |s.queues[q].slots|
    requires s'.workers[w].pc.InitCount? || s'.workers[w].pc == InitSlots(0, 0)
    requires Resetting(c, s, h)
    ensures Resetting(c, s', h) && Prefixes(c, s', h)
  {
    forall q | 0 <= q < |s.queues| ensures !Fresh(s', h, q) && !Fresh(s, h, q) {}
  }

  lemma InitCountResets(c: Config, s: State, h: History, w: nat, s': State)
    requires Resets(c, s, h, w) && s.workers[w].pc.InitCount? && s' == AfterInitCount(c, s, w, s.workers[w].pc.k)
    ensures ResetsTo(c, s, h, w, s')
  {
    assert WorkerOk(c, s, w);
    InitCountWorker(c, s, w, s');
  }

  lemma InitCountWorker(c: Config, s: State, w: nat, s': State)
    requires c.Valid() && |s.workers| == |s.queues| == c.threads && w < c.threads && |s.counters| == |c.g.succ|
    requires WorkerOk(c, s, w) && s.workers[w].pc.InitCount? && s' == AfterInitCount(c, s, w, s.workers[w].pc.k)
    ensures |s'.workers| == c.threads && |s'.counters| == |c.g.succ| && WorkerOk(c, s', w)
    ensures s'.workers == s.workers[w := s'.workers[w]] && s'.workers[w].tasknum == s.workers[w].tasknum
    ensures IsInit(s'.workers[w].pc) && FirstUnpushed(s'.workers[w].pc) == 0
    ensures s'.queues == s.queues && s'.log == s.log && s'.index == s.index && s'.traffic == s.traffic && s'.fault == s.fault
  {
    var k, tasknum := s.workers[w].pc.k, s.workers[w].tasknum;
    if |c.Multi()| <= k {
      assert s'.workers[w] == Worker(tasknum, InitSlots(0, 0));
    } else {
      assert s'.workers[w] == Worker(tasknum, InitCount(k + 1));
    }
  }

  lemma InitCountCounters(c: Config, s: State, h: History, w: nat, s': State)
    requires c.Valid() && |s.counters| == |c.g.succ| == |h.pend| && Counters(c, s, h)
    requires w < |s.workers| && h.initer == w && h.pend == c.AllNeeds()
    requires s.workers[w].pc.InitCount? && s.workers[w].pc.k <= |c.Multi()| && s' == AfterInitCount(c, s, w, s.workers[w].pc.k)
    ensures Counters(c, s', h)
  {
    var k := s.workers[w].pc.k;
    forall t | c.g.IsTask(t) && |c.g.pred[t]| > 1 && !Stale(c, s', h, t)
      ensures s'.counters[t] == |h.pend[t]| - Lag(c)
    {
      NeedsOf(c, t);
      if k < |c.Multi()| {
        assert c.Multi()[k..] == [c.Multi()[k]] + c.Multi()[k + 1..];
      }
      if k == |c.Multi()| || t != c.Multi()[k] {
        assert !Stale(c, s, h, t);
      }
    }
  }

  /** TaskQueue::InitOne, slots. */
  lemma InitSlotsStep(c: Config, s: State, h: History, w: nat, s': State)
    requires Resets(c, s, h, w) && s.workers[w].pc.InitSlots?
    requires var i := s.workers[w].pc.i;
      if c.threads <= i then s' == s.(workers := s.workers[w := Worker(s.workers[w].tasknum, InitPush(0, Begin))])
      else if |s.queues[i].slots| <= s.workers[w].pc.j then
        s' == s.(workers := s.workers[w := Worker(s.workers[w].tasknum, InitCounter(i))])
      else
        var j := s.workers[w].pc.j;
        s' == s.(queues := s.queues[i := s.queues[i].(slots := s.queues[i].slots[j := -1])],
                 workers := s.workers[w := Worker(s.workers[w].tasknum, InitSlots(i, j + 1))])
    ensures Inv(c, s', h)
  {
    ResetFacts(c, s, h, w);
    assert WorkerOk(c, s, w);
    var i := s.workers[w].pc.i;
    assert i < c.threads ==> !Fresh(s, h, i);
    ResetKeeps(c, s, h, w, s');
    InitSlotsRest(c, s, h, w, i, s');
  }

  lemma InitSlotsRest(c: Config, s: State, h: History, w: nat, i: nat, s': State)
    requires c.Valid() && |s.counters| == |c.g.succ| == |h.pend| && w < |s.workers| && h.initer == w
    requires |s'.workers| == |s.workers| && |s'.queues| == |s.queues| == c.threads && s'.counters == s.counters
    requires forall q :: 0 <= q < |s.queues| ==>
      && 0 <= s.queues[q].head <= |s.queues[q].slots| == |s'.queues[q].slots|
      && (s'.queues[q] == s.queues[q] || (q == i && s'.queues[q] == s.queues[q].(slots := s'.queues[q].slots)))
    requires s.workers[w].pc.InitSlots? && s.workers[w].pc.i == i
    requires s'.workers[w].pc == InitCounter(i) || (s'.workers[w].pc.InitSlots? && s'.workers[w].pc.i == i)
      || (c.threads <= i && s'.workers[w].pc.InitPush?)
    requires h.pend == c.AllNeeds() && (forall t :: t in h.loc ==> h.loc[t].Unpushed?)
    requires Counters(c, s, h) && Resetting(c, s, h) && Prefixes(c, s, h)
    ensures Counters(c, s', h) && Resetting(c, s', h) && Prefixes(c, s', h)
  {
    forall t ensures !Stale(c, s, h, t) && !Stale(c, s', h, t) {}
    forall q | 0 <= q < |s.queues| ensures Fresh(s', h, q) <==> Fresh(s, h, q) {}
  }

  /** TaskQueue::InitOne, counter word. */
  lemma InitCounterStep(c: Config, s: State, h: History, w: nat, s': State)
    requires Resets(c, s, h, w) && s.workers[w].pc.InitCounter?
    requires var i := s.workers[w].pc.i;
      && i < c.threads
      && s' == s.(queues := s.queues[i := s.queues[i].(head := 0, tail := 0)],
                  workers := s.workers[w := Worker(s.workers[w].tasknum, InitSlots(i + 1, 0))])
    ensures Inv(c, s', h)
  {
    ResetFacts(c, s, h, w);
    assert WorkerOk(c, s, w);
    var i := s.workers[w].pc.i;
    ResetKeeps(c, s, h, w, s');
    assert Counters(c, s', h) by {
      assert forall t :: !Stale(c, s, h, t) && !Stale(c, s', h, t);
    }
    assert forall q :: 0 <= q < |s.queues| ==> (Fresh(s', h, q) <==> q == i || Fresh(s, h, q));
    assert Resetting(c, s', h) && Prefixes(c, s', h);
  }
}
