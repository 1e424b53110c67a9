/** Every step of every worker keeps the invariant of the work-stealing scheduler. */
module WorkStealingSteps {
  import opened TaskGraph
  import opened WorkStealing
  import opened WorkStealingInvariant

  /** Task `t` has made the same progress in both states. */
  ghost predicate SameProgress(c: Config, s: State, h: History, s': State, h': History, t: int)
    requires c.Valid() && c.g.IsTask(t)
  {
    && (t in h'.loc <==> t in h.loc)
    && (t in h.loc ==> (h.loc[t].Busy? || h'.loc[t].Busy? ==> h'.loc[t] == h.loc[t]))
    && (t in h.loc && h.loc[t].Busy? && h.loc[t].w < |s.workers| && h.loc[t].w < |s'.workers| ==>
          var pc, pc' := s.workers[h.loc[t].w].pc, s'.workers[h.loc[t].w].pc;
          && (pc.Act? <==> pc'.Act?)
          && (pc.Act? ==> forall j :: 0 <= j < |c.g.succ[t]| ==>
                (Passed(pc.k, pc.m, c.g.Position(t, j)) <==> Passed(pc'.k, pc'.m, c.g.Position(t, j)))))
  }

  /** The part of the invariant that depends on the progress of the tasks only. */
  ghost predicate Progress(c: Config, s: State, h: History)
    requires c.Valid() && |h.pend| == |c.g.succ|
  {
    && Released(c, h)
    && Edges(c, s, h)
    && Logged(c, s, h) && PastCycles(c, s, h) && Ordered(c.g, s.log) && Index(c, s, h)
  }

  lemma ProgressKept(c: Config, s: State, h: History, s': State, h': History)
    requires c.Valid() && |s'.workers| == |s.workers| && |h.pend| == |c.g.succ|
    requires h'.pend == h.pend && h'.cyc == h.cyc && s'.log == s.log && s'.index == s.index
    requires forall t :: t in h'.loc ==> c.g.IsTask(t)
    requires Progress(c, s, h)
    requires forall t :: c.g.IsTask(t) ==> SameProgress(c, s, h, s', h', t)
    ensures Progress(c, s', h')
  {
    forall p, j | c.g.IsTask(p) && 0 <= j < |c.g.succ[p]|
      ensures Fired(c, s, h, p, j) <==> Fired(c, s', h', p, j)
    {
      assert SameProgress(c, s, h, s', h', p);
    }
    forall t | c.g.IsTask(t) ensures Begun(h, t) <==> Begun(h', t) {}
    forall t | c.g.IsTask(t) ensures Ended(s, h, t) <==> Ended(s', h', t) {}
  }

  /** What the places say about the workers. */
  lemma PlacesKept(c: Config, s: State, h: History, s': State)
    requires c.Valid() && Places(c, s, h)
    requires forall pl, t :: At(c, s', pl, t) <==> At(c, s, pl, t)
    ensures Places(c, s', h)
  {
    forall t | t in h.loc ensures At(c, s', h.loc[t], t) {
      assert At(c, s, h.loc[t], t);
    }
  }

  lemma BusyWorker(c: Config, s: State, h: History, t: int)
    requires c.Valid() && Places(c, s, h) && t in h.loc && h.loc[t].Busy?
    ensures h.loc[t].w < |s.workers| && BusyTask(c, s.workers[h.loc[t].w]) == t
  {
    assert At(c, s, h.loc[t], t);
  }

  /** A worker changes its own registers without moving a task. */
  ghost predicate Quiet(c: Config, s: State, w: nat, wk: Worker)
    requires c.Valid() && w < |s.workers|
  {
    var old_ := s.workers[w];
    && !IsInit(old_.pc) && !IsInit(wk.pc)
    && CarriedTask(wk) == CarriedTask(old_)
    && PushedTask(c, wk) == PushedTask(c, old_)
    && BusyTask(c, wk) == BusyTask(c, old_)
    && ClaimedTask(s.(workers := s.workers[w := wk]), w) == ClaimedTask(s, w)
    && (BusyTask(c, wk) != 0 ==>
          && (wk.pc.Act? <==> old_.pc.Act?)
          && (wk.pc.Act? ==> forall j :: 0 <= j < |c.g.succ[wk.pc.task]| ==>
                (Passed(wk.pc.k, wk.pc.m, c.g.Position(wk.pc.task, j))
                 <==> Passed(old_.pc.k, old_.pc.m, c.g.Position(wk.pc.task, j)))))
  }

  lemma QuietPlaces(c: Config, s: State, w: nat, wk: Worker)
    requires c.Valid() && w < |s.workers| && Quiet(c, s, w, wk)
    ensures forall pl, t :: At(c, s.(workers := s.workers[w := wk]), pl, t) <==> At(c, s, pl, t)
  {
  }

  lemma QuietProgress(c: Config, s: State, h: History, w: nat, wk: Worker, t: int)
    requires c.Valid() && w < |s.workers| && Quiet(c, s, w, wk) && Places(c, s, h) && c.g.IsTask(t)
    ensures SameProgress(c, s, h, s.(workers := s.workers[w := wk]), h, t)
  {
    if t in h.loc && h.loc[t].Busy? {
      BusyWorker(c, s, h, t);
    }
  }

  lemma OtherWorkersKept(c: Config, s: State, h: History, w: nat, wk: Worker, s': State, h': History)
    requires c.Valid() && |s.queues| == |s.workers| == c.threads && w < c.threads
    requires Workers(c, s, h) && h'.initer == h.initer
    requires s'.queues == s.queues && s'.workers == s.workers[w := wk] && s'.index == s.index
    requires (IsInit(wk.pc) <==> IsInit(s.workers[w].pc)) && (IsInit(wk.pc) ==> h.initer == w)
    requires WorkerOk(c, s', w)
    ensures Workers(c, s', h')
  {
    forall v | 0 <= v < c.threads ensures WorkerOk(c, s', v) {
      if v != w {
        assert WorkerOk(c, s, v);
        SameWorkerOk(c, s, s', v);
      }
    }
    forall v | 0 <= v < c.threads && h'.initer == v ensures IsInit(s'.workers[v].pc) {}
    forall v | 0 <= v < c.threads && IsInit(s'.workers[v].pc) ensures h'.initer == v || Refilled(c, s'.workers[v].pc) {}
  }

  lemma SameWorkerOk(c: Config, s: State, s': State, v: nat)
    requires c.Valid() && |s.queues| == |s.workers| == |s'.workers| == c.threads && v < c.threads
    requires s'.queues == s.queues && s'.workers[v] == s.workers[v] && s'.index == s.index && WorkerOk(c, s, v)
    ensures WorkerOk(c, s', v)
  {
    if s.workers[v].pc.Act? {
      assert MicroOk(c, s, v);
      assert MicroOk(c, s', v);
    }
  }

  lemma QuietStep(c: Config, s: State, h: History, w: nat, wk: Worker)
    requires Inv(c, s, h) && w < c.threads && Quiet(c, s, w, wk)
    requires WorkerOk(c, s.(workers := s.workers[w := wk]), w)
    ensures Inv(c, s.(workers := s.workers[w := wk]), h)
  {
    var s' := s.(workers := s.workers[w := wk]);
    assert Places(c, s', h) by {
      QuietPlaces(c, s, w, wk);
      PlacesKept(c, s, h, s');
    }
    assert Progress(c, s', h) by {
      forall t | c.g.IsTask(t) ensures SameProgress(c, s, h, s', h, t) {
        QuietProgress(c, s, h, w, wk, t);
      }
      ProgressKept(c, s, h, s', h);
    }
    assert Workers(c, s', h) by { OtherWorkersKept(c, s, h, w, wk, s', h); }
    assert h.initer != w;
    assert Counters(c, s', h);
    assert Prefixes(c, s', h);
  }

  // ---------------------------------------------------------------------------------------
  // Activation of one successor
  // ---------------------------------------------------------------------------------------

  /** Worker `w` is about to activate the `j`-th successor of the task it has run. */
  ghost predicate Firing(c: Config, s: State, h: History, w: nat, j: nat) {
    && Inv(c, s, h) && w < c.threads
    && IsAct(c, s.workers[w].pc) && s.workers[w].pc.m.Begin?
    && j < |c.g.succ[s.workers[w].pc.task]|
    && c.g.Position(s.workers[w].pc.task, j) == s.workers[w].pc.k
  }

  /** The activated task. */
  ghost function Target(c: Config, s: State, h: History, w: nat, j: nat): int
    requires Firing(c, s, h, w, j)
  {
    c.g.succ[s.workers[w].pc.task][j]
  }

  lemma FiringFacts(c: Config, s: State, h: History, w: nat, j: nat)
    requires Firing(c, s, h, w, j)
    ensures var t, u := s.workers[w].pc.task, Target(c, s, h, w, j);
      && t in h.loc && h.loc[t] == Busy(w) && c.g.IsTask(u) && u != t
      && t in h.pend[u] && u !in h.loc && t in c.g.pred[u]
      && h.pend[t] == {}
      && !Stale(c, s, h, u)
      && (0 <= h.initer ==> s.workers[h.initer].pc.InitPush?)
      && !Complete(c, s)
  {
    var t, k := s.workers[w].pc.task, s.workers[w].pc.k;
    ActivatesEachSuccessorOnce(c.g, t, k, j);
    assert At(c, s, Busy(w), t);
    assert !Fired(c, s, h, t, j);
  }

  /** The history after the activation; a released task goes to place `pl`. */
  ghost function FireHistory(c: Config, s: State, h: History, w: nat, j: nat, pl: Place): History
    requires Firing(c, s, h, w, j)
  {
    var t, u := s.workers[w].pc.task, Target(c, s, h, w, j);
    var loc := if s.workers[w].pc.k == c.g.LastPosition(t) then h.loc - {t} else h.loc;
    h.(pend := h.pend[u := h.pend[u] - {t}],
       loc := if h.pend[u] - {t} == {} then loc[u := pl] else loc)
  }

  /** The registers of the worker before and after the activation of its `j`-th successor. */
  ghost predicate FireBusy(c: Config, wk: Worker, wk': Worker, j: nat)
    requires c.Valid() && IsAct(c, wk.pc) && j < |c.g.succ[wk.pc.task]|
  {
    var t, k := wk.pc.task, wk.pc.k;
    && !IsInit(wk'.pc) && !Claims(wk'.pc)
    && BusyTask(c, wk') == (if k == c.g.LastPosition(t) then 0 else t)
    && (BusyTask(c, wk') != 0 ==> wk'.pc.Act? && forall i :: 0 <= i < |c.g.succ[t]| ==>
          (Passed(wk'.pc.k, wk'.pc.m, c.g.Position(t, i)) <==> i == j || Passed(k, Begin, c.g.Position(t, i))))
  }

  ghost predicate FireHands(c: Config, wk: Worker, wk': Worker, w: nat, u: int, released: bool, pl: Place)
    requires c.Valid()
  {
    && (pl == Carried(w) || pl == Pushing(w))
    && (if released then
          if pl == Carried(w) then CarriedTask(wk') == u && CarriedTask(wk) == 0 && PushedTask(c, wk') == 0
          else CarriedTask(wk') == CarriedTask(wk) && PushedTask(c, wk') == u
        else CarriedTask(wk') == CarriedTask(wk) && PushedTask(c, wk') == 0)
  }

  ghost predicate FireWorker(c: Config, s: State, h: History, w: nat, j: nat, wk: Worker, pl: Place)
    requires Firing(c, s, h, w, j)
  {
    var u := Target(c, s, h, w, j);
    && FireBusy(c, s.workers[w], wk, j)
    && FireHands(c, s.workers[w], wk, w, u, h.pend[u] - {s.workers[w].pc.task} == {}, pl)
  }

  lemma FireAt(c: Config, s: State, w: nat, j: nat, wk: Worker, pl: Place, released: bool, s': State, p: Place, x: int)
    requires c.Valid() && w < |s.workers| && IsAct(c, s.workers[w].pc) && s.workers[w].pc.m.Begin?
    requires j < |c.g.succ[s.workers[w].pc.task]|
    requires s'.queues == s.queues && s'.workers == s.workers[w := wk]
    requires BusyTask(c, s.workers[w]) == s.workers[w].pc.task
    requires FireBusy(c, s.workers[w], wk, j)
    requires FireHands(c, s.workers[w], wk, w, c.g.succ[s.workers[w].pc.task][j], released, pl)
    ensures var t, u := s.workers[w].pc.task, c.g.succ[s.workers[w].pc.task][j];
      At(c, s', p, x) <==>
        || (released && x == u && p == pl)
        || (At(c, s, p, x) && !(s.workers[w].pc.k == c.g.LastPosition(t) && p == Busy(w)))
  {
    assert c.g.IsTask(c.g.succ[s.workers[w].pc.task][j]);
  }

  lemma FirePlaces(c: Config, s: State, h: History, w: nat, j: nat, wk: Worker, pl: Place, s': State)
    requires Firing(c, s, h, w, j) && FireWorker(c, s, h, w, j, wk, pl)
    requires s'.queues == s.queues && s'.workers == s.workers[w := wk]
    ensures Places(c, s', FireHistory(c, s, h, w, j, pl))
  {
    FiringFacts(c, s, h, w, j);
    var h' := FireHistory(c, s, h, w, j, pl);
    var t, u := s.workers[w].pc.task, Target(c, s, h, w, j);
    var released, retires := h.pend[u] - {t} == {}, s.workers[w].pc.k == c.g.LastPosition(t);
    assert At(c, s, h.loc[t], t);
    forall p, x
      ensures At(c, s', p, x) <==> (released && x == u && p == pl) || (At(c, s, p, x) && !(retires && p == Busy(w)))
    {
      FireAt(c, s, w, j, wk, pl, released, s', p, x);
    }
    FirePlacesCore(c, s, h, s', h', w, t, u, pl, released, retires);
  }

  lemma FirePlacesCore(c: Config, s: State, h: History, s': State, h': History, w: nat, t: int, u: int, pl: Place,
                       released: bool, retires: bool)
    requires c.Valid() && Places(c, s, h) && t in h.loc && h.loc[t] == Busy(w) && u !in h.loc && u != t
    requires h'.loc == var loc := if retires then h.loc - {t} else h.loc; if released then loc[u := pl] else loc
    requires forall p, x :: At(c, s', p, x) <==>
      (released && x == u && p == pl) || (At(c, s, p, x) && !(retires && p == Busy(w)))
    ensures Places(c, s', h')
  {
    forall p, x | At(c, s', p, x) ensures x in h'.loc && h'.loc[x] == p {
      assert At(c, s, p, x) ==> x in h.loc && h.loc[x] == p;
    }
    forall x | x in h'.loc ensures At(c, s', h'.loc[x], x) {
      if x in h.loc {
        assert At(c, s, h.loc[x], x);
        assert At(c, s, h.loc[t], t);
      }
    }
  }

  lemma FireEdges(c: Config, s: State, h: History, w: nat, j: nat, wk: Worker, pl: Place, s': State, p: int, i: nat)
    requires Firing(c, s, h, w, j) && FireWorker(c, s, h, w, j, wk, pl)
    requires s'.workers == s.workers[w := wk]
    requires c.g.IsTask(p) && i < |c.g.succ[p]|
    ensures var h' := FireHistory(c, s, h, w, j, pl);
      p in h'.pend[c.g.succ[p][i]] <==> !Fired(c, s', h', p, i)
  {
    FiringFacts(c, s, h, w, j);
    assert p in h.pend[c.g.succ[p][i]] <==> !Fired(c, s, h, p, i);
    if p == s.workers[w].pc.task {
      FireOwnEdges(c, s, h, w, j, wk, pl, s', i);
    } else {
      FireOtherEdges(c, s, h, w, j, wk, pl, s', p, i);
    }
  }

  lemma FireOtherEdges(c: Config, s: State, h: History, w: nat, j: nat, wk: Worker, pl: Place, s': State, p: int, i: nat)
    requires Firing(c, s, h, w, j) && FireWorker(c, s, h, w, j, wk, pl)
    requires s'.workers == s.workers[w := wk]
    requires c.g.IsTask(p) && i < |c.g.succ[p]| && p != s.workers[w].pc.task
    ensures var h' := FireHistory(c, s, h, w, j, pl);
      && (Fired(c, s', h', p, i) <==> Fired(c, s, h, p, i))
      && (p in h'.pend[c.g.succ[p][i]] <==> p in h.pend[c.g.succ[p][i]])
  {
    FiringFacts(c, s, h, w, j);
    if p in h.loc && h.loc[p].Busy? {
      BusyWorker(c, s, h, p);
      assert h.loc[p].w != w;
    }
    FireOtherPend(c, s, h, w, j, pl, p, i);
    var h' := FireHistory(c, s, h, w, j, pl);
    if p != Target(c, s, h, w, j) {
      FiredElsewhere(c, s, h, s', h', w, wk, p, i);
    }
  }

  lemma FiredElsewhere(c: Config, s: State, h: History, s': State, h': History, w: nat, wk: Worker, p: int, i: nat)
    requires c.Valid() && |h.pend| == |h'.pend| == |c.g.succ| && c.g.IsTask(p) && i < |c.g.succ[p]|
    requires w < |s.workers| && s'.workers == s.workers[w := wk] && h'.pend[p] == h.pend[p]
    requires p in h'.loc <==> p in h.loc
    requires p in h.loc ==> h'.loc[p] == h.loc[p] && (h.loc[p].Busy? ==> h.loc[p].w != w)
    ensures Fired(c, s', h', p, i) <==> Fired(c, s, h, p, i)
  {
  }

  lemma FireOtherPend(c: Config, s: State, h: History, w: nat, j: nat, pl: Place, p: int, i: nat)
    requires Firing(c, s, h, w, j)
    requires c.g.IsTask(p) && i < |c.g.succ[p]| && p != s.workers[w].pc.task
    ensures var h' := FireHistory(c, s, h, w, j, pl);
      p in h'.pend[c.g.succ[p][i]] <==> p in h.pend[c.g.succ[p][i]]
  {
    FiringFacts(c, s, h, w, j);
  }

  lemma FireOwnEdges(c: Config, s: State, h: History, w: nat, j: nat, wk: Worker, pl: Place, s': State, i: nat)
    requires Firing(c, s, h, w, j) && FireWorker(c, s, h, w, j, wk, pl)
    requires s'.workers == s.workers[w := wk]
    requires i < |c.g.succ[s.workers[w].pc.task]|
    ensures var h', t := FireHistory(c, s, h, w, j, pl), s.workers[w].pc.task;
      t in h'.pend[c.g.succ[t][i]] <==> !Fired(c, s', h', t, i)
  {
    FiringFacts(c, s, h, w, j);
    var t, k := s.workers[w].pc.task, s.workers[w].pc.k;
    assert t in h.pend[c.g.succ[t][i]] <==> !Fired(c, s, h, t, i);
    ActivatesEachSuccessorOnce(c.g, t, k, i);
    ActivatesEachSuccessorOnce(c.g, t, k, j);
    OwnFired(c, s, s', FireHistory(c, s, h, w, j, pl), w, wk, j, i);
  }

  /** After its `j`-th activation, the task has made exactly this one and those before. */
  lemma OwnFired(c: Config, s: State, s': State, h': History, w: nat, wk: Worker, j: nat, i: nat)
    requires c.Valid() && |h'.pend| == |c.g.succ| && w < |s.workers| && s'.workers == s.workers[w := wk]
    requires IsAct(c, s.workers[w].pc) && s.workers[w].pc.m.Begin?
    requires var t := s.workers[w].pc.task; j < |c.g.succ[t]| && i < |c.g.succ[t]|
    requires FireBusy(c, s.workers[w], wk, j)
    requires var t, k := s.workers[w].pc.task, s.workers[w].pc.k;
      && k == c.g.Position(t, j)
      && if k == c.g.LastPosition(t) then t !in h'.loc && h'.pend[t] == {} else t in h'.loc && h'.loc[t] == Busy(w)
    ensures var t, k := s.workers[w].pc.task, s.workers[w].pc.k;
      Fired(c, s', h', t, i) <==> i == j || Passed(k, Begin, c.g.Position(t, i))
  {
    var t, k := s.workers[w].pc.task, s.workers[w].pc.k;
    ActivatesEachSuccessorOnce(c.g, t, k, i);
    ActivatesEachSuccessorOnce(c.g, t, k, j);
  }

  lemma FireLogged(c: Config, s: State, h: History, w: nat, j: nat, wk: Worker, pl: Place, s': State)
    requires Firing(c, s, h, w, j) && FireWorker(c, s, h, w, j, wk, pl)
    requires s'.workers == s.workers[w := wk] && s'.log == s.log && s'.index == s.index
    ensures var h' := FireHistory(c, s, h, w, j, pl);
      Logged(c, s', h') && PastCycles(c, s', h') && Index(c, s', h') && Released(c, h')
  {
    FiringFacts(c, s, h, w, j);
    var h' := FireHistory(c, s, h, w, j, pl);
    forall x | c.g.IsTask(x) ensures (Begun(h', x) <==> Begun(h, x)) && (Ended(s', h', x) <==> Ended(s, h, x)) {
      FireBegun(c, s, h, w, j, wk, pl, s', x);
    }
    LoggedKept(c, s, h, s', h');
  }

  lemma LoggedKept(c: Config, s: State, h: History, s': State, h': History)
    requires |h.pend| == |h'.pend| == |c.g.succ| && h'.cyc == h.cyc && s'.log == s.log
    requires forall x :: c.g.IsTask(x) ==> (Begun(h', x) <==> Begun(h, x)) && (Ended(s', h', x) <==> Ended(s, h, x))
    requires Logged(c, s, h)
    ensures Logged(c, s', h')
  {
  }

  lemma FireBegun(c: Config, s: State, h: History, w: nat, j: nat, wk: Worker, pl: Place, s': State, x: int)
    requires Firing(c, s, h, w, j) && FireWorker(c, s, h, w, j, wk, pl)
    requires s'.workers == s.workers[w := wk] && c.g.IsTask(x)
    ensures var h' := FireHistory(c, s, h, w, j, pl);
      (Begun(h', x) <==> Begun(h, x)) && (Ended(s', h', x) <==> Ended(s, h, x))
  {
    FiringFacts(c, s, h, w, j);
    if x in h.loc && h.loc[x].Busy? {
      FireEnded(c, s, h, w, j, wk, pl, s', x);
    }
  }

  lemma FireEnded(c: Config, s: State, h: History, w: nat, j: nat, wk: Worker, pl: Place, s': State, x: int)
    requires Firing(c, s, h, w, j) && FireWorker(c, s, h, w, j, wk, pl)
    requires s'.workers == s.workers[w := wk] && x in h.loc && h.loc[x].Busy?
    ensures Ended(s', FireHistory(c, s, h, w, j, pl), x) <==> Ended(s, h, x)
  {
    FiringFacts(c, s, h, w, j);
    BusyWorker(c, s, h, x);
  }

  lemma FireCounters(c: Config, s: State, h: History, w: nat, j: nat, wk: Worker, pl: Place, s': State)
    requires Firing(c, s, h, w, j) && !IsInit(wk.pc)
    requires s'.workers == s.workers[w := wk]
    requires var u := Target(c, s, h, w, j);
      s'.counters == if |c.g.pred[u]| > 1 then s.counters[u := s.counters[u] - 1] else s.counters
    ensures Counters(c, s', FireHistory(c, s, h, w, j, pl))
  {
    FiringFacts(c, s, h, w, j);
    var u := Target(c, s, h, w, j);
    assert h.initer != w;
    forall x | c.g.IsTask(x) && |c.g.pred[x]| > 1 ensures s.counters[x] == |h.pend[x]| - Lag(c) {
      assert !Stale(c, s, h, x);
    }
  }

  lemma FirePrefixes(c: Config, s: State, h: History, w: nat, j: nat, wk: Worker, pl: Place, s': State)
    requires Firing(c, s, h, w, j) && !IsInit(wk.pc)
    requires s'.queues == s.queues && s'.workers == s.workers[w := wk]
    ensures Prefixes(c, s', FireHistory(c, s, h, w, j, pl))
  {
    FiringFacts(c, s, h, w, j);
    var h' := FireHistory(c, s, h, w, j, pl);
    forall q | 0 <= q < |s.queues| && Fresh(s', h', q) ensures Fresh(s, h, q) {}
    forall x | c.g.IsTask(x) && WasPushed(c, h, x) ensures WasPushed(c, h', x) {}
  }

  /** Activating a successor keeps the invariant, whichever activation variant does it. */
  lemma FireStep(c: Config, s: State, h: History, w: nat, j: nat, wk: Worker, pl: Place, s': State)
    requires Firing(c, s, h, w, j) && FireWorker(c, s, h, w, j, wk, pl)
    requires s'.workers == s.workers[w := wk] && s'.log == s.log && s'.index == s.index
    requires s'.queues == s.queues && !s'.fault
    requires var u := Target(c, s, h, w, j);
      s'.counters == if |c.g.pred[u]| > 1 then s.counters[u := s.counters[u] - 1] else s.counters
    requires WorkerOk(c, s', w)
    ensures Inv(c, s', FireHistory(c, s, h, w, j, pl))
  {
    FiringFacts(c, s, h, w, j);
    var h' := FireHistory(c, s, h, w, j, pl);
    assert Places(c, s', h') by { FirePlaces(c, s, h, w, j, wk, pl, s'); }
    assert Edges(c, s', h') by {
      forall p, i | c.g.IsTask(p) && 0 <= i < |c.g.succ[p]|
        ensures p in h'.pend[c.g.succ[p][i]] <==> !Fired(c, s', h', p, i)
      {
        FireEdges(c, s, h, w, j, wk, pl, s', p, i);
      }
    }
    assert Logged(c, s', h') && PastCycles(c, s', h') && Index(c, s', h') && Released(c, h') by {
      FireLogged(c, s, h, w, j, wk, pl, s');
    }
    assert Workers(c, s', h') by { OtherWorkersKept(c, s, h, w, wk, s', h'); }
    assert Counters(c, s', h') by { FireCounters(c, s, h, w, j, wk, pl, s'); }
    assert Prefixes(c, s', h') by { FirePrefixes(c, s, h, w, j, wk, pl, s'); }
    assert Resetting(c, s', h');
  }
}
