/** The steps that open and close a task or a whole cycle. */
module WorkStealingCycle {
  import opened Sequences
  import opened TaskGraph
  import opened WorkStealing
  import opened WorkStealingInvariant
  import opened WorkStealingSteps
  import opened WorkStealingMoves

  // ---------------------------------------------------------------------------------------
  // A task starts and ends
  // ---------------------------------------------------------------------------------------

  /** Appending an event keeps the log ordered. */
  lemma OrderedAppend(g: Graph, log: seq<Event>, e: Event)
    requires Ordered(g, log) && e !in log
    requires e.Start? && 0 <= e.task < |g.pred| ==> forall p :: p in g.pred[e.task] ==> Finish(p, e.index) in log
    ensures Ordered(g, log + [e])
  {
    var log' := log + [e];
    NoDuplicatesAppend(log, e);
    forall a, p | 0 <= a < |log'| && log'[a].Start? && 0 <= log'[a].task < |g.pred| && p in g.pred[log'[a].task]
      ensures Finish(p, log'[a].index) in log'[..a]
    {
      if a < |log| {
        assert log'[..a] == log[..a];
      } else {
        assert log'[..a] == log;
      }
    }
  }

  /** All inputs of a released task have finished in this cycle. */
  lemma InputsFinished(c: Config, s: State, h: History, t: int, p: int)
    requires Inv(c, s, h) && c.g.IsTask(t) && h.pend[t] == {} && p in c.g.pred[t]
    ensures Finish(p, Offset(c, h.cyc)) in s.log
  {
    assert c.g.IsTask(p) && t in c.g.succ[p];
    var j :| 0 <= j < |c.g.succ[p]| && c.g.succ[p][j] == t;
    assert Fired(c, s, h, p, j);
    assert Ended(s, h, p);
  }

  /** The history in which worker `w` is busy with task `t`. */
  ghost function StartHistory(h: History, w: nat, t: int): History {
    h.(loc := h.loc[t := Busy(w)])
  }

  lemma StartFacts(c: Config, s: State, h: History, w: nat)
    requires Inv(c, s, h) && w < c.threads && s.workers[w].pc.Switch? && s.workers[w].tasknum != 0
    ensures var t := s.workers[w].tasknum;
      && t in h.loc && h.loc[t] == Carried(w) && c.g.IsTask(t) && h.pend[t] == {} && !Begun(h, t)
      && !Complete(c, s) && s.index == Offset(c, h.cyc) && s.workers[w].pc.idx == s.index
      && Start(t, s.index) !in s.log && Finish(t, s.index) !in s.log
  {
    var t := s.workers[w].tasknum;
    assert WorkerOk(c, s, w);
    assert At(c, s, Carried(w), t);
    assert !Begun(h, t) && !Ended(s, h, t);
  }

  ghost predicate Starts(c: Config, s: State, h: History, w: nat, s': State) {
    && Inv(c, s, h) && w < c.threads && s.workers[w].pc.Switch? && s.workers[w].tasknum != 0
    && var t := s.workers[w].tasknum;
    && s'.workers == s.workers[w := Worker(t, Run(t, s.index))]
    && s'.log == s.log + [Start(t, s.index)] && s'.index == s.index
  }

  lemma StartEdges(c: Config, s: State, h: History, w: nat, s': State)
    requires Starts(c, s, h, w, s')
    ensures Edges(c, s', StartHistory(h, w, s.workers[w].tasknum))
  {
    StartFacts(c, s, h, w);
    var t := s.workers[w].tasknum;
    var h' := StartHistory(h, w, t);
    forall p, j | c.g.IsTask(p) && 0 <= j < |c.g.succ[p]| ensures Fired(c, s', h', p, j) <==> Fired(c, s, h, p, j) {
      if p != t && p in h.loc && h.loc[p].Busy? {
        BusyWorker(c, s, h, p);
      }
    }
  }

  lemma StartBegun(c: Config, s: State, h: History, w: nat, s': State, x: int)
    requires Starts(c, s, h, w, s') && c.g.IsTask(x)
    ensures var t, h' := s.workers[w].tasknum, StartHistory(h, w, s.workers[w].tasknum);
      (Begun(h', x) <==> x == t || Begun(h, x)) && (Ended(s', h', x) <==> Ended(s, h, x))
  {
    StartFacts(c, s, h, w);
    if x != s.workers[w].tasknum && x in h.loc && h.loc[x].Busy? {
      BusyWorker(c, s, h, x);
    }
  }

  lemma StartLogged(c: Config, s: State, h: History, w: nat, s': State)
    requires Starts(c, s, h, w, s')
    ensures Logged(c, s', StartHistory(h, w, s.workers[w].tasknum))
    ensures PastCycles(c, s', StartHistory(h, w, s.workers[w].tasknum))
  {
    StartFacts(c, s, h, w);
    var t := s.workers[w].tasknum;
    var h' := StartHistory(h, w, t);
    forall x | c.g.IsTask(x) ensures (Begun(h', x) <==> x == t || Begun(h, x)) && (Ended(s', h', x) <==> Ended(s, h, x)) {
      StartBegun(c, s, h, w, s', x);
    }
  }

  lemma StartOrdered(c: Config, s: State, h: History, w: nat, s': State)
    requires Starts(c, s, h, w, s')
    ensures Ordered(c.g, s'.log)
  {
    StartFacts(c, s, h, w);
    var t := s.workers[w].tasknum;
    forall p | p in c.g.pred[t] ensures Finish(p, s.index) in s.log {
      InputsFinished(c, s, h, t, p);
    }
    OrderedAppend(c.g, s.log, Start(t, s.index));
  }

  lemma StartPlaces(c: Config, s: State, h: History, w: nat, s': State)
    requires c.Valid() && Places(c, s, h) && w < |s.workers|
    requires s.workers[w].pc.Switch? && s.workers[w].tasknum != 0
    requires var t := s.workers[w].tasknum; s'.queues == s.queues && s'.workers == s.workers[w := Worker(t, Run(t, s.index))]
    ensures Places(c, s', StartHistory(h, w, s.workers[w].tasknum))
  {
    var t := s.workers[w].tasknum;
    var h' := StartHistory(h, w, t);
    assert At(c, s, Carried(w), t);
    forall p, x | At(c, s', p, x) ensures x in h'.loc && h'.loc[x] == p {
      StartAt(c, s, w, s', p, x);
      assert At(c, s, p, x) ==> x in h.loc && h.loc[x] == p;
    }
    forall x | x in h'.loc ensures At(c, s', h'.loc[x], x) {
      StartAt(c, s, w, s', h'.loc[x], x);
      if x != t {
        assert At(c, s, h.loc[x], x);
        assert h.loc[x] == Carried(w) ==> x == t;
      }
    }
  }

  lemma StartAt(c: Config, s: State, w: nat, s': State, p: Place, x: int)
    requires c.Valid() && w < |s.workers| && s.workers[w].pc.Switch? && s.workers[w].tasknum != 0
    requires var t := s.workers[w].tasknum; s'.queues == s.queues && s'.workers == s.workers[w := Worker(t, Run(t, s.index))]
    ensures At(c, s', p, x) <==>
      (p == Busy(w) && x == s.workers[w].tasknum) || (At(c, s, p, x) && p != Carried(w))
  {
  }

  lemma StartStep(c: Config, s: State, h: History, w: nat)
    requires Inv(c, s, h) && w < c.threads && s.workers[w].pc.Switch?
    requires s.workers[w].tasknum != 0 && s.workers[w].tasknum != LAST_TASK_INDEX
    ensures Inv(c, Step(c, s, w), StartHistory(h, w, s.workers[w].tasknum))
  {
    StartFacts(c, s, h, w);
    var t := s.workers[w].tasknum;
    var s', h' := Step(c, s, w), StartHistory(h, w, t);
    assert Edges(c, s', h') by { StartEdges(c, s, h, w, s'); }
    assert Logged(c, s', h') && PastCycles(c, s', h') by { StartLogged(c, s, h, w, s'); }
    assert Ordered(c.g, s'.log) by { StartOrdered(c, s, h, w, s'); }
    assert Places(c, s', h') by { StartPlaces(c, s, h, w, s'); }
    assert Workers(c, s', h') by {
      assert WorkerOk(c, s, w);
      OtherWorkersKept(c, s, h, w, s'.workers[w], s', h');
    }
    assert Counters(c, s', h') by { CountersMoved(c, s, h, s', h'.loc); }
    assert Prefixes(c, s', h') by { PrefixesMoved(c, s, h, s', t, Busy(w)); }
    assert Resetting(c, s', h') by {
      assert forall q :: 0 <= q < |s.queues| ==> (Fresh(s', h', q) <==> Fresh(s, h, q));
    }
  }

  lemma FinishFacts(c: Config, s: State, h: History, w: nat)
    requires Inv(c, s, h) && w < c.threads && s.workers[w].pc.Run?
    ensures var t := s.workers[w].pc.task;
      && t in h.loc && h.loc[t] == Busy(w) && c.g.IsTask(t) && s.workers[w].tasknum == t && t != LAST_TASK_INDEX
      && s.workers[w].pc.idx == s.index
      && !Complete(c, s) && s.index == Offset(c, h.cyc) && Finish(t, s.index) !in s.log
  {
    var t := s.workers[w].pc.task;
    assert WorkerOk(c, s, w);
    assert At(c, s, Busy(w), t);
    assert !Ended(s, h, t);
  }

  lemma FinishProgress(c: Config, s: State, h: History, w: nat, s': State)
    requires Inv(c, s, h) && w < c.threads && s.workers[w].pc.Run?
    requires var t := s.workers[w].pc.task;
      && s'.workers == s.workers[w := Worker(t, Act(t, 0, Begin))]
      && s'.log == s.log + [Finish(t, s.index)] && s'.index == s.index
    ensures Progress(c, s', h)
  {
    FinishFacts(c, s, h, w);
    var t := s.workers[w].pc.task;
    assert Edges(c, s', h) by {
      forall p, j | c.g.IsTask(p) && 0 <= j < |c.g.succ[p]| ensures Fired(c, s', h, p, j) <==> Fired(c, s, h, p, j) {
        FinishFired(c, s, h, w, s', p, j);
      }
    }
    assert Logged(c, s', h) && PastCycles(c, s', h) by { FinishLogged(c, s, h, w, s'); }
    assert Ordered(c.g, s'.log) by { OrderedAppend(c.g, s.log, Finish(t, s.index)); }
  }

  lemma FinishFired(c: Config, s: State, h: History, w: nat, s': State, p: int, j: nat)
    requires Inv(c, s, h) && w < c.threads && s.workers[w].pc.Run?
    requires s'.workers == s.workers[w := Worker(s.workers[w].pc.task, Act(s.workers[w].pc.task, 0, Begin))]
    requires c.g.IsTask(p) && j < |c.g.succ[p]|
    ensures Fired(c, s', h, p, j) <==> Fired(c, s, h, p, j)
  {
    FinishFacts(c, s, h, w);
    if p != s.workers[w].pc.task && p in h.loc && h.loc[p].Busy? {
      BusyWorker(c, s, h, p);
    }
  }

  lemma FinishLogged(c: Config, s: State, h: History, w: nat, s': State)
    requires Inv(c, s, h) && w < c.threads && s.workers[w].pc.Run?
    requires var t := s.workers[w].pc.task;
      s'.workers == s.workers[w := Worker(t, Act(t, 0, Begin))] && s'.log == s.log + [Finish(t, s.index)]
    ensures Logged(c, s', h) && PastCycles(c, s', h)
  {
    FinishFacts(c, s, h, w);
    var t := s.workers[w].pc.task;
    forall x | c.g.IsTask(x) ensures Ended(s', h, x) <==> x == t || Ended(s, h, x) {
      if x != t && x in h.loc && h.loc[x].Busy? {
        BusyWorker(c, s, h, x);
      }
    }
  }

  lemma FinishPlaces(c: Config, s: State, w: nat, s': State)
    requires c.Valid() && w < |s.workers| && s.workers[w].pc.Run?
    requires var t := s.workers[w].pc.task;
      && c.g.IsTask(t) && t != LAST_TASK_INDEX && s.workers[w].tasknum == t
      && s'.queues == s.queues && s'.workers == s.workers[w := Worker(t, Act(t, 0, Begin))]
    ensures forall p, x :: At(c, s', p, x) <==> At(c, s, p, x)
  {
  }

  lemma FinishStep(c: Config, s: State, h: History, w: nat)
    requires Inv(c, s, h) && w < c.threads && s.workers[w].pc.Run?
    ensures Inv(c, Step(c, s, w), h) && Step(c, s, w).traffic == s.traffic
  {
    FinishFacts(c, s, h, w);
    var s' := Step(c, s, w);
    assert Progress(c, s', h) by { FinishProgress(c, s, h, w, s'); }
    assert Places(c, s', h) by {
      FinishPlaces(c, s, w, s');
      PlacesKept(c, s, h, s');
    }
    assert Workers(c, s', h) by {
      assert WorkerOk(c, s, w);
      OtherWorkersKept(c, s, h, w, s'.workers[w], s', h);
    }
    assert Counters(c, s', h) by { CountersMoved(c, s, h, s', h.loc); }
    assert Resetting(c, s', h) && Prefixes(c, s', h) by {
      assert forall q :: 0 <= q < |s.queues| ==> (Fresh(s', h, q) <==> Fresh(s, h, q));
    }
  }
}
