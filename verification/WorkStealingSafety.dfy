/** Every step keeps the invariant, and the invariant holds in the initial state. */
module WorkStealingSafety {
  import opened TaskGraph
  import opened WorkStealing
  import opened WorkStealingInvariant
  import opened WorkStealingSteps
  import opened WorkStealingMoves
  import opened WorkStealingPush
  import opened WorkStealingCycle
  import opened WorkStealingReset
  import opened WorkStealingTraffic

  // ---------------------------------------------------------------------------------------
  // Activation code
  // ---------------------------------------------------------------------------------------

  ghost predicate AtAction(c: Config, s: State, h: History, w: nat) {
    Inv(c, s, h) && w < c.threads && s.workers[w].pc.Act? && s.workers[w].pc.m.Begin?
  }

  ghost function ActionOf(c: Config, s: State, h: History, w: nat): Action
    requires AtAction(c, s, h, w)
  {
    assert WorkerOk(c, s, w);
    c.g.ActionAt(s.workers[w].pc.task, s.workers[w].pc.k)
  }

  /** Skip, `tasknum = 0` and GetReadyTask activate nobody. */
  lemma PassiveStep(c: Config, s: State, h: History, w: nat)
    requires AtAction(c, s, h, w)
    requires ActionOf(c, s, h, w).Skip? || ActionOf(c, s, h, w).ResetTask? || ActionOf(c, s, h, w).GetReady?
    ensures Inv(c, Step(c, s, w), h) && Step(c, s, w).traffic == s.traffic
  {
    assert WorkerOk(c, s, w);
    var wk := Step(c, s, w).workers[w];
    PassiveShape(c, s, w);
    PassiveIsQuiet(c, s, w, wk);
    QuietStep(c, s, h, w, wk);
  }

  lemma PassiveShape(c: Config, s: State, w: nat)
    requires c.Valid() && w < c.threads && |s.workers| == |s.queues| == c.threads && |s.counters| == |c.g.succ|
    requires IsAct(c, s.workers[w].pc) && s.workers[w].pc.m.Begin?
    requires var a := c.g.ActionAt(s.workers[w].pc.task, s.workers[w].pc.k); a.Skip? || a.ResetTask? || a.GetReady?
    ensures Step(c, s, w) == StepAction(c, s, w, s.workers[w].pc.task, s.workers[w].pc.k)
    ensures Step(c, s, w) == s.(workers := s.workers[w := Step(c, s, w).workers[w]])
  {
  }

  lemma PassiveIsQuiet(c: Config, s: State, w: nat, wk: Worker)
    requires c.Valid() && w < c.threads && |s.workers| == |s.queues| == c.threads && |s.counters| == |c.g.succ|
    requires WorkerOk(c, s, w) && s.workers[w].pc.Act? && s.workers[w].pc.m.Begin?
    requires var a := c.g.ActionAt(s.workers[w].pc.task, s.workers[w].pc.k); a.Skip? || a.ResetTask? || a.GetReady?
    requires wk == StepAction(c, s, w, s.workers[w].pc.task, s.workers[w].pc.k).workers[w]
    ensures Quiet(c, s, w, wk) && WorkerOk(c, s.(workers := s.workers[w := wk]), w)
  {
    var t, k := s.workers[w].pc.task, s.workers[w].pc.k;
    ActionPositions(c.g, t, k);
    forall j | 0 <= j < |c.g.succ[t]| ensures k != c.g.Position(t, j) {
      ActivatesEachSuccessorOnce(c.g, t, k, j);
    }
  }

  /** The other actions activate one successor. */
  lemma ActiveFacts(c: Config, s: State, h: History, w: nat) returns (j: nat)
    requires AtAction(c, s, h, w)
    requires !(ActionOf(c, s, h, w).Skip? || ActionOf(c, s, h, w).ResetTask? || ActionOf(c, s, h, w).GetReady?)
    ensures Firing(c, s, h, w, j) && ActionOf(c, s, h, w).u == Target(c, s, h, w, j)
    ensures ActionOf(c, s, h, w).Targets(Target(c, s, h, w, j)) && c.g.IsTask(Target(c, s, h, w, j))
    ensures ActionOf(c, s, h, w).Decrements() <==> |c.g.pred[Target(c, s, h, w, j)]| > 1
    ensures |c.g.pred[Target(c, s, h, w, j)]| > 1 ==>
      s.counters[Target(c, s, h, w, j)] == |h.pend[Target(c, s, h, w, j)]| - Lag(c)
    ensures |c.g.pred[Target(c, s, h, w, j)]| <= 1 ==>
      h.pend[Target(c, s, h, w, j)] == {s.workers[w].pc.task}
    ensures var t, u := s.workers[w].pc.task, Target(c, s, h, w, j);
      h.pend[u] - {t} == {} <==> |h.pend[u]| == 1
  {
    assert WorkerOk(c, s, w);
    var t, k := s.workers[w].pc.task, s.workers[w].pc.k;
    assert c.g.ActionAt(t, k).Targets(c.g.ActionAt(t, k).u);
    j := ActionHasSuccessor(c.g, t, k);
    ActivatesEachSuccessorOnce(c.g, t, k, j);
    FiringFacts(c, s, h, w, j);
    var u := Target(c, s, h, w, j);
    assert h.pend[u] <= c.Needs(u) by {
      forall p | p in h.pend[u] ensures p in c.Needs(u) {}
    }
    Cardinality(h.pend[u], c.Needs(u), t);
  }

  lemma Cardinality(a: set<int>, b: set<int>, x: int)
    requires x in a && a <= b
    ensures a - {x} == {} <==> |a| == 1
    ensures |b| <= 1 ==> a == {x}
  {
    assert |a - {x}| == |a| - 1;
    assert |b - {x}| == |b| - 1;
    assert |b| <= 1 ==> b - {x} == {};
  }

  /** The registers after an activation that takes worker `w` from `wk` to `wk'`. */
  ghost predicate Activates(c: Config, wk: Worker, wk': Worker, w: nat, released: bool, pl: Place)
    requires c.Valid() && IsAct(c, wk.pc)
  {
    var t, k, a := wk.pc.task, wk.pc.k, c.g.ActionAt(wk.pc.task, wk.pc.k);
    && (a.SetTask? || a.Push? || a.ActivateOne? || a.Activate1? || a.Activate2?)
    && if !released then
         && (pl == Carried(w) || pl == Pushing(w)) && !a.SetTask? && !a.Push?
         && wk' == Worker(wk.tasknum, if a.ActivateOne? then Act(t, k, PopStart) else NextAction(c, t, k))
       else if pl == Carried(w) then
         && wk' == Worker(a.u, NextAction(c, t, k))
         && (a.Activate1? ==> wk.tasknum == 0) && !a.Push? && !a.Activate2?
       else
         && pl == Pushing(w) && wk' == Worker(wk.tasknum, Act(t, k, ToPush))
         && !a.SetTask? && !a.ActivateOne?
  }

  lemma ActivationBusy(c: Config, s: State, wk': Worker, w: nat, j: nat, released: bool, pl: Place)
    requires c.Valid() && w < |s.workers| && IsAct(c, s.workers[w].pc) && s.workers[w].pc.m.Begin?
    requires var wk := s.workers[w];
      && j < |c.g.succ[wk.pc.task]| && c.g.Position(wk.pc.task, j) == wk.pc.k
      && Activates(c, wk, wk', w, released, pl)
    ensures FireBusy(c, s.workers[w], wk', j)
  {
    var t, k := s.workers[w].pc.task, s.workers[w].pc.k;
    ActionPositions(c.g, t, k);
    forall i | 0 <= i < |c.g.succ[t]| ensures c.g.Position(t, i) == k <==> i == j {
      ActivatesEachSuccessorOnce(c.g, t, k, i);
      ActivatesEachSuccessorOnce(c.g, t, k, j);
    }
  }

  lemma ActivationHands(c: Config, s: State, wk': Worker, w: nat, j: nat, released: bool, pl: Place)
    requires c.Valid() && |s.workers| == |s.queues| == c.threads && w < c.threads
    requires WorkerOk(c, s, w) && IsAct(c, s.workers[w].pc) && s.workers[w].pc.m.Begin?
    requires var wk := s.workers[w];
      && j < |c.g.succ[wk.pc.task]|
      && c.g.ActionAt(wk.pc.task, wk.pc.k).Targets(c.g.succ[wk.pc.task][j])
      && Activates(c, wk, wk', w, released, pl)
    ensures FireHands(c, s.workers[w], wk', w, c.g.succ[s.workers[w].pc.task][j], released, pl)
  {
    var t, k := s.workers[w].pc.task, s.workers[w].pc.k;
    ActionPositions(c.g, t, k);
    assert c.g.IsTask(c.g.succ[t][j]) && c.g.succ[t][j] != t;
  }

  lemma ActivationWorkerOk(c: Config, s: State, s': State, w: nat, j: nat, released: bool, pl: Place)
    requires c.Valid() && |s.workers| == |s.queues| == |s'.queues| == |s'.workers| == c.threads && w < c.threads
    requires WorkerOk(c, s, w) && IsAct(c, s.workers[w].pc) && s.workers[w].pc.m.Begin?
    requires var wk := s.workers[w];
      && j < |c.g.succ[wk.pc.task]|
      && c.g.ActionAt(wk.pc.task, wk.pc.k).Targets(c.g.succ[wk.pc.task][j])
      && Activates(c, wk, s'.workers[w], w, released, pl)
    ensures WorkerOk(c, s', w)
  {
    var t, k := s.workers[w].pc.task, s.workers[w].pc.k;
    ActionPositions(c.g, t, k);
    assert c.g.IsTask(c.g.succ[t][j]) && c.g.succ[t][j] != t;
  }

  /** One activation, by any of the five actions that make one. */
  lemma ActiveStep(c: Config, s: State, h: History, w: nat) returns (h': History)
    requires AtAction(c, s, h, w)
    requires !(ActionOf(c, s, h, w).Skip? || ActionOf(c, s, h, w).ResetTask? || ActionOf(c, s, h, w).GetReady?)
    ensures Inv(c, Step(c, s, w), h') && Transports(c, s, h, Step(c, s, w), h')
  {
    var j := ActiveFacts(c, s, h, w);
    var s', wk, a, u := Step(c, s, w), s.workers[w], ActionOf(c, s, h, w), Target(c, s, h, w, j);
    assert WorkerOk(c, s, w);
    var released := h.pend[u] - {wk.pc.task} == {};
    var pl := if a.Push? || a.Activate2? || (a.Activate1? && wk.tasknum != 0) then Pushing(w) else Carried(w);
    ActiveShape(c, s, w, u, released, pl);
    h' := ActiveCases(c, s, h, w, j, released, pl, s');
  }

  /** What one activation does to the state. */
  lemma ActiveShape(c: Config, s: State, w: nat, u: int, released: bool, pl: Place)
    requires c.Valid() && |s.workers| == |s.queues| == c.threads && |s.counters| == |c.g.succ| && w < c.threads
    requires IsAct(c, s.workers[w].pc) && s.workers[w].pc.m.Begin? && c.g.IsTask(u)
    requires var a := c.g.ActionAt(s.workers[w].pc.task, s.workers[w].pc.k);
      && a.Targets(u) && (a.Decrements() <==> |c.g.pred[u]| > 1)
      && pl == (if a.Push? || a.Activate2? || (a.Activate1? && s.workers[w].tasknum != 0) then Pushing(w) else Carried(w))
    requires if |c.g.pred[u]| > 1 then released <==> s.counters[u] + Lag(c) == 1 else released
    ensures var s' := Step(c, s, w);
      && Activates(c, s.workers[w], s'.workers[w], w, released, pl)
      && s' == s.(workers := s.workers[w := s'.workers[w]],
                  counters := if |c.g.pred[u]| > 1 then s.counters[u := s.counters[u] - 1] else s.counters)
  {
    assert Step(c, s, w) == StepAction(c, s, w, s.workers[w].pc.task, s.workers[w].pc.k);
  }

  lemma ActiveCases(c: Config, s: State, h: History, w: nat, j: nat, released: bool, pl: Place, s': State)
      returns (h': History)
    requires Firing(c, s, h, w, j) && w < |s'.workers|
    requires var u := Target(c, s, h, w, j);
      && c.g.ActionAt(s.workers[w].pc.task, s.workers[w].pc.k).Targets(u)
      && released == (h.pend[u] - {s.workers[w].pc.task} == {})
      && s' == s.(workers := s.workers[w := s'.workers[w]],
                  counters := if |c.g.pred[u]| > 1 then s.counters[u := s.counters[u] - 1] else s.counters)
    requires Activates(c, s.workers[w], s'.workers[w], w, released, pl)
    ensures Inv(c, s', h') && Transports(c, s, h, s', h')
  {
    assert WorkerOk(c, s, w);
    ActivationBusy(c, s, s'.workers[w], w, j, released, pl);
    ActivationHands(c, s, s'.workers[w], w, j, released, pl);
    ActivationWorkerOk(c, s, s', w, j, released, pl);
    FireStep(c, s, h, w, j, s'.workers[w], pl, s');
    h' := FireHistory(c, s, h, w, j, pl);
    FireTransports(c, s, h, w, j, pl, s');
  }

  lemma FireTransports(c: Config, s: State, h: History, w: nat, j: nat, pl: Place, s': State)
    requires Firing(c, s, h, w, j) && (pl == Carried(w) || pl == Pushing(w)) && s'.traffic == s.traffic
    ensures Transports(c, s, h, s', FireHistory(c, s, h, w, j, pl))
  {
    FiringFacts(c, s, h, w, j);
    Activation(c, s, h, s', FireHistory(c, s, h, w, j, pl), s.workers[w].pc.task, Target(c, s, h, w, j));
  }

  // ---------------------------------------------------------------------------------------
  // PushHead
  // ---------------------------------------------------------------------------------------

  ghost predicate AtPush(c: Config, s: State, h: History, w: nat) {
    && Inv(c, s, h) && w < c.threads && s.workers[w].pc.Act?
    && (s.workers[w].pc.m.ToPush? || s.workers[w].pc.m.Wrote? || s.workers[w].pc.m.HeadRead?)
  }

  lemma PushFacts(c: Config, s: State, h: History, w: nat)
    requires AtPush(c, s, h, w)
    ensures IsAct(c, s.workers[w].pc) && MicroOk(c, s, w)
    ensures PushesItem(c, s, h, w, PushedTask(c, s.workers[w])) && PushedTask(c, s.workers[w]) != 0
    ensures var t, k := s.workers[w].pc.task, s.workers[w].pc.k;
      k + 1 < c.g.Length(t) && (k >= 1 || !c.g.Clears(t))
  {
    assert WorkerOk(c, s, w);
    assert At(c, s, Pushing(w), PushedTask(c, s.workers[w]));
    ActionPositions(c.g, s.workers[w].pc.task, s.workers[w].pc.k);
  }

  /** Inside one push the task that keeps the worker busy makes no progress. */
  lemma PushHands(c: Config, s: State, w: nat, wk: Worker)
    requires c.Valid() && |s.queues| == |s.workers| == c.threads && w < c.threads
    requires IsAct(c, s.workers[w].pc) && IsAct(c, wk.pc) && wk.tasknum == s.workers[w].tasknum
    requires wk.pc.task == s.workers[w].pc.task && !s.workers[w].pc.m.Begin? && !Claims(wk.pc) && !Claims(s.workers[w].pc)
    requires if wk.pc.m.Begin? then wk.pc.k == s.workers[w].pc.k + 1 else wk.pc.k == s.workers[w].pc.k
    ensures SameHands(c, s, w, wk)
  {
  }

  lemma PushWriteStep(c: Config, s: State, h: History, w: nat, s': State)
    requires AtPush(c, s, h, w) && s.workers[w].pc.m.ToPush?
    requires var q, wk := s.queues[w], s.workers[w];
      s' == s.(queues := s.queues[w := q.(slots := q.slots[q.head := PushedTask(c, wk)])],
               workers := s.workers[w := Worker(wk.tasknum, Act(wk.pc.task, wk.pc.k, Wrote))])
    ensures Inv(c, s', h)
  {
    PushFacts(c, s, h, w);
    assert WorkerOk(c, s, w);
    PushHands(c, s, w, s'.workers[w]);
    WriteStep(c, s, h, w, PushedTask(c, s.workers[w]), s'.workers[w], s');
  }

  lemma PushReadStep(c: Config, s: State, h: History, w: nat, wk: Worker, s': State)
    requires AtPush(c, s, h, w) && s.workers[w].pc.m.Wrote?
    requires wk == Worker(s.workers[w].tasknum, Act(s.workers[w].pc.task, s.workers[w].pc.k, HeadRead(s.queues[w].head)))
    requires s' == s.(workers := s.workers[w := wk])
    ensures Inv(c, s', h)
  {
    PushFacts(c, s, h, w);
    assert WorkerOk(c, s, w);
    PushHands(c, s, w, wk);
    QuietStep(c, s, h, w, wk);
  }

  lemma PushPublishStep(c: Config, s: State, h: History, w: nat, s': State)
    requires AtPush(c, s, h, w) && s.workers[w].pc.m.HeadRead?
    requires var q, wk := s.queues[w], s.workers[w];
      s' == s.(queues := s.queues[w := q.(head := q.head + 1)],
               workers := s.workers[w := Worker(wk.tasknum, Act(wk.pc.task, wk.pc.k + 1, Begin))],
               traffic := s'.traffic)
    ensures Inv(c, s', h.(loc := h.loc[PushedTask(c, s.workers[w]) := Slot(w, s.queues[w].head)]))
  {
    PushFacts(c, s, h, w);
    assert WorkerOk(c, s, w);
    PushPublishes(c, s, h, w, s');
    PublishStep(c, s, h, w, PushedTask(c, s.workers[w]), s'.workers[w], s');
  }

  lemma PushPublishes(c: Config, s: State, h: History, w: nat, s': State)
    requires c.Valid() && |s.queues| == |s.workers| == c.threads && w < c.threads
    requires IsAct(c, s.workers[w].pc) && WorkerOk(c, s, w) && s.workers[w].pc.m.HeadRead?
    requires PushesItem(c, s, h, w, PushedTask(c, s.workers[w]))
    requires var t, k := s.workers[w].pc.task, s.workers[w].pc.k;
      k + 1 < c.g.Length(t) && (k >= 1 || !c.g.Clears(t))
    requires var q, wk := s.queues[w], s.workers[w];
      s' == s.(queues := s.queues[w := q.(head := q.head + 1)],
               workers := s.workers[w := Worker(wk.tasknum, Act(wk.pc.task, wk.pc.k + 1, Begin))],
               traffic := s'.traffic)
    ensures Publishes(c, s, h, w, PushedTask(c, s.workers[w]), s'.workers[w], s')
  {
    PushHands(c, s, w, s'.workers[w]);
  }

  // ---------------------------------------------------------------------------------------
  // PopHead and PopTail
  // ---------------------------------------------------------------------------------------

  ghost predicate AtPop(c: Config, s: State, h: History, w: nat) {
    && Inv(c, s, h) && w < c.threads && s.workers[w].pc.Act?
    && (s.workers[w].pc.m.PopStart? || s.workers[w].pc.m.PopRead? || s.workers[w].pc.m.PopWon?)
  }

  /** A worker inside PopHead has nothing in its hands. */
  lemma PopFacts(c: Config, s: State, h: History, w: nat)
    requires AtPop(c, s, h, w)
    ensures IsAct(c, s.workers[w].pc) && MicroOk(c, s, w) && PopsHere(c, s.workers[w])
    ensures CarriedTask(s.workers[w]) == 0 && BusyTask(c, s.workers[w]) == 0 && PushedTask(c, s.workers[w]) == 0
    ensures NextAction(c, s.workers[w].pc.task, s.workers[w].pc.k) == Top
  {
    assert WorkerOk(c, s, w);
    ActionPositions(c.g, s.workers[w].pc.task, s.workers[w].pc.k);
  }

  /** Reading the counter word, or failing the CAS. */
  lemma PopQuietStep(c: Config, s: State, h: History, w: nat, wk: Worker, s': State)
    requires AtPop(c, s, h, w) && !s.workers[w].pc.m.PopWon? && s' == s.(workers := s.workers[w := wk])
    requires
      || wk == Worker(0, Top)
      || wk == Worker(s.workers[w].tasknum, Act(s.workers[w].pc.task, s.workers[w].pc.k, PopStart))
      || (s.queues[w].tail != s.queues[w].head &&
          wk == Worker(s.workers[w].tasknum,
                       Act(s.workers[w].pc.task, s.workers[w].pc.k, PopRead(s.queues[w].head, s.queues[w].tail))))
    ensures Inv(c, s', h)
  {
    PopFacts(c, s, h, w);
    assert WorkerOk(c, s, w);
    PopQuiet(c, s, w, wk);
    QuietStep(c, s, h, w, wk);
  }

  lemma PopQuiet(c: Config, s: State, w: nat, wk: Worker)
    requires c.Valid() && |s.queues| == |s.workers| == c.threads && w < c.threads && WorkerOk(c, s, w)
    requires 0 <= s.queues[w].tail <= s.queues[w].head <= MAX_SHORT
    requires IsAct(c, s.workers[w].pc) && PopsHere(c, s.workers[w])
    requires s.workers[w].pc.m.PopStart? || s.workers[w].pc.m.PopRead?
    requires CarriedTask(s.workers[w]) == 0 && BusyTask(c, s.workers[w]) == 0 && PushedTask(c, s.workers[w]) == 0
    requires
      || wk == Worker(0, Top)
      || wk == Worker(s.workers[w].tasknum, Act(s.workers[w].pc.task, s.workers[w].pc.k, PopStart))
      || (s.queues[w].tail != s.queues[w].head &&
          wk == Worker(s.workers[w].tasknum,
                       Act(s.workers[w].pc.task, s.workers[w].pc.k, PopRead(s.queues[w].head, s.queues[w].tail))))
    ensures Quiet(c, s, w, wk) && WorkerOk(c, s.(workers := s.workers[w := wk]), w)
  {
  }

  lemma PopCasWorker(c: Config, s: State, w: nat, s': State)
    requires c.Valid() && |s.queues| == |s.workers| == c.threads && w < c.threads && WorkerOk(c, s, w)
    requires s.workers[w].pc.Act? && IsAct(c, s.workers[w].pc) && PopsHere(c, s.workers[w])
    requires 0 <= s.queues[w].tail < s.queues[w].head < |s.queues[w].slots|
    requires SlotAt(s, w, s.queues[w].head - 1) != 0 && !s.workers[w].pc.m.Begin?
    requires BusyTask(c, s.workers[w]) == 0
    requires var q, wk := s.queues[w], s.workers[w];
      s' == s.(queues := s.queues[w := q.(head := q.head - 1)],
               workers := s.workers[w := Worker(wk.tasknum, Act(wk.pc.task, wk.pc.k, PopWon(q.head)))])
    ensures WorkerOk(c, s', w) && SameBusy(c, s.workers[w], s'.workers[w])
    ensures CarriedTask(s'.workers[w]) == CarriedTask(s.workers[w]) && PushedTask(c, s'.workers[w]) == 0
    ensures ClaimedTask(s', w) == SlotAt(s, w, s.queues[w].head - 1)
  {
  }

  /** The CAS of PopHead succeeds. */
  lemma PopCasStep(c: Config, s: State, h: History, w: nat, s': State)
    requires AtPop(c, s, h, w) && s.workers[w].pc.m.PopRead?
    requires var q, wk := s.queues[w], s.workers[w];
      && wk.pc.m == PopRead(q.head, q.tail)
      && s' == s.(queues := s.queues[w := q.(head := q.head - 1)],
                  workers := s.workers[w := Worker(wk.tasknum, Act(wk.pc.task, wk.pc.k, PopWon(q.head)))])
    ensures var u := SlotAt(s, w, s.queues[w].head - 1);
      u in h.loc && h.loc[u].Slot? && Inv(c, s', h.(loc := h.loc[u := Claimed(w)]))
  {
    PopFacts(c, s, h, w);
    assert WorkerOk(c, s, w);
    ClaimedSlotIsTask(c, s, h, w, s.queues[w].head - 1);
    PopClaiming(c, s, w, s');
    ClaimStep(c, s, h, w, w, s.queues[w].head - 1, s');
  }

  lemma PopClaiming(c: Config, s: State, w: nat, s': State)
    requires c.Valid() && |s.queues| == |s.workers| == c.threads && w < c.threads && WorkerOk(c, s, w)
    requires s.workers[w].pc.Act? && IsAct(c, s.workers[w].pc) && PopsHere(c, s.workers[w])
    requires 0 <= s.queues[w].tail < s.queues[w].head < |s.queues[w].slots|
    requires SlotAt(s, w, s.queues[w].head - 1) != 0 && s.workers[w].pc.m.PopRead?
    requires BusyTask(c, s.workers[w]) == 0 && PushedTask(c, s.workers[w]) == 0
    requires var q, wk := s.queues[w], s.workers[w];
      s' == s.(queues := s.queues[w := q.(head := q.head - 1)],
               workers := s.workers[w := Worker(wk.tasknum, Act(wk.pc.task, wk.pc.k, PopWon(q.head)))])
    ensures Claiming(c, s, w, w, s.queues[w].head - 1, s') && WorkerOk(c, s', w)
  {
    PopCasWorker(c, s, w, s');
  }

  lemma ClaimedIsTask(c: Config, s: State, h: History, w: nat, u: int)
    requires Inv(c, s, h) && w < c.threads && ClaimedTask(s, w) == u && u != 0
    ensures c.g.IsTask(u)
  {
    assert At(c, s, Claimed(w), u);
  }

  ghost predicate AtSteal(c: Config, s: State, h: History, w: nat) {
    && Inv(c, s, h) && w < c.threads
    && (s.workers[w].pc.StealSnap? || s.workers[w].pc.StealRead? || s.workers[w].pc.StealWon?)
  }

  lemma StealQuietStep(c: Config, s: State, h: History, w: nat, wk: Worker, s': State)
    requires AtSteal(c, s, h, w) && !s.workers[w].pc.StealWon? && s' == s.(workers := s.workers[w := wk])
    requires
      || wk == Worker(0, Top)
      || (wk.tasknum == 0 && wk.pc.StealSnap?)
      || (wk.tasknum == 0 && wk.pc.StealRead? && wk.pc.i < c.threads && 0 <= wk.pc.t < wk.pc.h <= MAX_SHORT)
    ensures Inv(c, s', h)
  {
    assert WorkerOk(c, s, w);
    QuietStep(c, s, h, w, wk);
  }

  /** The CAS of PopTail succeeds. */
  lemma StealCasStep(c: Config, s: State, h: History, w: nat, i: nat, s': State)
    requires AtSteal(c, s, h, w) && i < c.threads && s.workers[w].pc == StealRead(i, s.queues[i].head, s.queues[i].tail)
    requires var q := s.queues[i];
      s' == s.(queues := s.queues[i := q.(tail := q.tail + 1)], workers := s.workers[w := Worker(0, StealWon(i, q.tail))])
    ensures var u := SlotAt(s, i, s.queues[i].tail);
      u in h.loc && h.loc[u].Slot? && Inv(c, s', h.(loc := h.loc[u := Claimed(w)]))
  {
    assert WorkerOk(c, s, w);
    ClaimedSlotIsTask(c, s, h, i, s.queues[i].tail);
    ClaimStep(c, s, h, w, i, s.queues[i].tail, s');
  }

  /** The claimed slot is read. */
  lemma TakeClaimed(c: Config, s: State, h: History, w: nat, u: int, s': State)
    requires AtSteal(c, s, h, w) || AtPop(c, s, h, w)
    requires Claims(s.workers[w].pc) && u == ClaimedTask(s, w)
    requires s' == SetWorker(s, w, u, Top).(traffic := s'.traffic)
    ensures u in h.loc && h.loc[u] == Claimed(w)
    ensures Inv(c, s', h.(loc := h.loc[u := Carried(w)]))
  {
    assert WorkerOk(c, s, w);
    if s.workers[w].pc.Act? {
      PopFacts(c, s, h, w);
    }
    ClaimedIsTask(c, s, h, w, u);
    TakeStep(c, s, h, w, u, s');
  }

  // ---------------------------------------------------------------------------------------
  // The end task refills its queue
  // ---------------------------------------------------------------------------------------

  ghost predicate AtRefill(c: Config, s: State, h: History, w: nat) {
    Inv(c, s, h) && w < c.threads && s.workers[w].pc.InitPush? && !Refilled(c, s.workers[w].pc)
  }

  lemma RefillFacts(c: Config, s: State, h: History, w: nat)
    requires AtRefill(c, s, h, w)
    ensures s.workers[w].pc.k < |c.g.ready| && PushesItem(c, s, h, w, c.g.ready[s.workers[w].pc.k])
    ensures WorkerOk(c, s, w)
  {
    assert WorkerOk(c, s, w);
    var k := s.workers[w].pc.k;
    assert c.g.ready[k] in c.g.ready;
    assert At(c, s, Unpushed(w, k), c.g.ready[k]);
  }

  lemma RefillWriteStep(c: Config, s: State, h: History, w: nat, s': State)
    requires AtRefill(c, s, h, w) && !s.workers[w].pc.m.HeadRead?
    requires var q, k := s.queues[w], s.workers[w].pc.k;
      && k < |c.g.ready|
      && if s.workers[w].pc.m.Wrote? then
           s' == s.(workers := s.workers[w := Worker(s.workers[w].tasknum, InitPush(k, HeadRead(q.head)))])
         else
           s' == s.(queues := s.queues[w := q.(slots := q.slots[q.head := c.g.ready[k]])],
                    workers := s.workers[w := Worker(s.workers[w].tasknum, InitPush(k, Wrote))])
    ensures Inv(c, s', h)
  {
    RefillFacts(c, s, h, w);
    var q, u := s.queues[w], c.g.ready[s.workers[w].pc.k];
    if s.workers[w].pc.m.Wrote? {
      assert q.slots[q.head := u] == q.slots;
      assert q.(slots := q.slots[q.head := u]) == q;
      assert s.queues[w := q] == s.queues;
    }
    WriteStep(c, s, h, w, u, s'.workers[w], s');
  }

  lemma RefillPublishStep(c: Config, s: State, h: History, w: nat, s': State)
    requires AtRefill(c, s, h, w) && s.workers[w].pc.m.HeadRead? && s.workers[w].pc.k < |c.g.ready|
    requires var q, k := s.queues[w], s.workers[w].pc.k;
      s' == s.(queues := s.queues[w := q.(head := q.head + 1)],
               workers := s.workers[w := Worker(s.workers[w].tasknum, InitPush(k + 1, Begin))],
               traffic := s'.traffic)
    ensures var u := c.g.ready[s.workers[w].pc.k];
      u in h.loc && h.loc[u].Unpushed? && Inv(c, s', h.(loc := h.loc[u := Slot(w, s.queues[w].head)]))
  {
    RefillFacts(c, s, h, w);
    RefillPublishes(c, s, h, w, s');
    PublishStep(c, s, h, w, c.g.ready[s.workers[w].pc.k], s'.workers[w], s');
  }

  lemma RefillPublishes(c: Config, s: State, h: History, w: nat, s': State)
    requires c.Valid() && |s.queues| == |s.workers| == c.threads && w < c.threads && WorkerOk(c, s, w)
    requires s.workers[w].pc.InitPush? && s.workers[w].pc.m.HeadRead? && s.workers[w].pc.k < |c.g.ready|
    requires PushesItem(c, s, h, w, c.g.ready[s.workers[w].pc.k])
    requires var q, k := s.queues[w], s.workers[w].pc.k;
      s' == s.(queues := s.queues[w := q.(head := q.head + 1)],
               workers := s.workers[w := Worker(s.workers[w].tasknum, InitPush(k + 1, Begin))],
               traffic := s'.traffic)
    ensures Publishes(c, s, h, w, c.g.ready[s.workers[w].pc.k], s'.workers[w], s')
  {
  }

  lemma RefilledStep(c: Config, s: State, h: History, w: nat) returns (h': History)
    requires Inv(c, s, h) && w < c.threads && Refilled(c, s.workers[w].pc)
    ensures Inv(c, SetWorker(s, w, 0, Top), h') && h' == h.(initer := h'.initer)
  {
    assert WorkerOk(c, s, w);
    var s' := SetWorker(s, w, 0, Top);
    h' := h.(initer := if h.initer == w then -1 else h.initer);
    RefilledPlaces(c, s, w, s');
    PlacesKept(c, s, h, s');
    OneMoves(c, s, w, Worker(0, Top), s');
    BusyProgressKept(c, s, h, s', h');
    RefilledWorkers(c, s, h, w, s', h');
    RefilledRest(c, s, h, w, s', h');
  }

  lemma RefilledRest(c: Config, s: State, h: History, w: nat, s': State, h': History)
    requires Inv(c, s, h) && w < c.threads && Refilled(c, s.workers[w].pc)
    requires s'.queues == s.queues && s'.workers == s.workers[w := Worker(0, Top)] && s'.counters == s.counters
    requires h' == h.(initer := if h.initer == w then -1 else h.initer)
    ensures Counters(c, s', h') && Prefixes(c, s', h') && Resetting(c, s', h')
  {
    forall t ensures Stale(c, s', h', t) <==> Stale(c, s, h, t) {}
    forall q | 0 <= q < |s.queues| ensures Fresh(s', h', q) <==> Fresh(s, h, q) {}
  }

  lemma RefilledPlaces(c: Config, s: State, w: nat, s': State)
    requires c.Valid() && w < |s.workers| && Refilled(c, s.workers[w].pc)
    requires s'.queues == s.queues && s'.workers == s.workers[w := Worker(0, Top)]
    ensures forall p, x :: At(c, s', p, x) <==> At(c, s, p, x)
  {
  }

  lemma RefilledWorkers(c: Config, s: State, h: History, w: nat, s': State, h': History)
    requires Inv(c, s, h) && w < c.threads && Refilled(c, s.workers[w].pc)
    requires s'.queues == s.queues && s'.workers == s.workers[w := Worker(0, Top)] && s'.index == s.index
    requires h'.initer == if h.initer == w then -1 else h.initer
    ensures Workers(c, s', h')
  {
    forall v | 0 <= v < c.threads ensures WorkerOk(c, s', v) {
      if v != w {
        assert WorkerOk(c, s, v);
        SameWorkerOk(c, s, s', v);
      }
    }
  }

  // ---------------------------------------------------------------------------------------
  // Any step
  // ---------------------------------------------------------------------------------------

  lemma LoopStep(c: Config, s: State, h: History, w: nat)
    requires Inv(c, s, h) && w < c.threads
    requires s.workers[w].pc.Top? || s.workers[w].pc.Exited? || (s.workers[w].pc.Switch? && s.workers[w].tasknum == 0)
    ensures Inv(c, Step(c, s, w), h) && Step(c, s, w).traffic == s.traffic
  {
    var s' := Step(c, s, w);
    if s.workers[w].pc.Exited? {
      assert s' == s;
    } else {
      assert WorkerOk(c, s, w);
      assert s' == s.(workers := s.workers[w := s'.workers[w]]);
      QuietStep(c, s, h, w, s'.workers[w]);
    }
  }

  lemma SwitchStep(c: Config, s: State, h: History, w: nat) returns (h': History)
    requires Inv(c, s, h) && w < c.threads && s.workers[w].pc.Switch?
    ensures Inv(c, Step(c, s, w), h') && Transports(c, s, h, Step(c, s, w), h')
  {
    h' := h;
    if s.workers[w].tasknum == 0 {
      LoopStep(c, s, h, w);
      SameStages(c, s, h, Step(c, s, w), h');
    } else if s.workers[w].tasknum != LAST_TASK_INDEX {
      StartFacts(c, s, h, w);
      StartStep(c, s, h, w);
      h' := StartHistory(h, w, s.workers[w].tasknum);
      StaysInStage(c, s, h, Step(c, s, w), s.workers[w].tasknum, Busy(w));
    } else {
      StartFacts(c, s, h, w);
      assert Step(c, s, w) == AfterLast(c, s, w);
      if s.index + c.vec < c.full {
        NextCycleStep(c, s, h, w);
        h' := NextHistory(c, w, h.cyc);
      } else {
        LastCycleStep(c, s, h, w);
        h' := h.(loc := map[]);
      }
      LastTransports(c, s, h, w, h');
    }
  }

  lemma NextStages(c: Config, w: nat, cyc: nat)
    requires c.Valid()
    ensures forall t :: c.g.IsTask(t) ==> StageOf(NextHistory(c, w, cyc), t).Before?
  {
    forall t | c.g.IsTask(t) ensures StageOf(NextHistory(c, w, cyc), t).Before? {
      assert t in c.g.ready <==> c.g.pred[t] == {};
    }
  }

  lemma LastTransports(c: Config, s: State, h: History, w: nat, h': History)
    requires RunsLast(c, s, h, w) && (h' == NextHistory(c, w, h.cyc) || h' == h.(loc := map[]))
    ensures Transports(c, s, h, AfterLast(c, s, w), h')
  {
    LastFacts(c, s, h, w);
    StartFacts(c, s, h, w);
    NextStages(c, w, h.cyc);
    EndOfCycle(c, s, h, AfterLast(c, s, w), h', w);
  }

  lemma PushStep(c: Config, s: State, h: History, w: nat) returns (h': History)
    requires AtPush(c, s, h, w)
    ensures Inv(c, Step(c, s, w), h') && Transports(c, s, h, Step(c, s, w), h')
  {
    PushFacts(c, s, h, w);
    PushShape(c, s, w);
    h' := PushCases(c, s, h, w, Step(c, s, w));
  }

  /** The states around one step of PushHead. */
  ghost predicate PushTo(c: Config, s: State, w: nat, s': State)
    requires c.Valid() && w < |s.workers| && w < |s.queues|
  {
    var q, wk := s.queues[w], s.workers[w];
    && wk.pc.Act?
    && match wk.pc.m
       case ToPush =>
         0 <= q.head < |q.slots| &&
         s' == s.(queues := s.queues[w := q.(slots := q.slots[q.head := PushedTask(c, wk)])],
                  workers := s.workers[w := Worker(wk.tasknum, Act(wk.pc.task, wk.pc.k, Wrote))])
       case Wrote => s' == s.(workers := s.workers[w := Worker(wk.tasknum, Act(wk.pc.task, wk.pc.k, HeadRead(q.head)))])
       case HeadRead(_) =>
         s' == s.(queues := s.queues[w := q.(head := q.head + 1)],
                  workers := s.workers[w := Worker(wk.tasknum, Act(wk.pc.task, wk.pc.k + 1, Begin))],
                  traffic := s.traffic + [Sent(PushedTask(c, wk), s.index)])
       case _ => false
  }

  lemma PushShape(c: Config, s: State, w: nat)
    requires c.Valid() && |s.queues| == |s.workers| == c.threads && w < c.threads && |s.counters| == |c.g.succ|
    requires IsAct(c, s.workers[w].pc) && MicroOk(c, s, w) && 0 <= s.queues[w].head < |s.queues[w].slots|
    requires var m := s.workers[w].pc.m; m.ToPush? || m.Wrote? || m.HeadRead?
    requires s.workers[w].pc.k + 1 < c.g.Length(s.workers[w].pc.task)
    ensures PushTo(c, s, w, Step(c, s, w))
  {
    assert Step(c, s, w) == StepPush(c, s, w, s.workers[w].pc.task, s.workers[w].pc.k, s.workers[w].pc.m);
  }

  lemma PushCases(c: Config, s: State, h: History, w: nat, s': State) returns (h': History)
    requires AtPush(c, s, h, w) && PushTo(c, s, w, s')
    ensures Inv(c, s', h') && Transports(c, s, h, s', h')
  {
    h' := h;
    var m := s.workers[w].pc.m;
    if m.ToPush? {
      PushWriteStep(c, s, h, w, s');
      SameStages(c, s, h, s', h');
    } else if m.Wrote? {
      PushReadStep(c, s, h, w, s'.workers[w], s');
      SameStages(c, s, h, s', h');
    } else {
      h' := PushSends(c, s, h, w, s');
    }
  }

  lemma PushSends(c: Config, s: State, h: History, w: nat, s': State) returns (h': History)
    requires AtPush(c, s, h, w) && s.workers[w].pc.m.HeadRead? && PushTo(c, s, w, s')
    ensures Inv(c, s', h') && Transports(c, s, h, s', h')
  {
    PushFacts(c, s, h, w);
    var u := PushedTask(c, s.workers[w]);
    PushPublishStep(c, s, h, w, s');
    h' := h.(loc := h.loc[u := Slot(w, s.queues[w].head)]);
    IsSent(c, s, h, s', u, Slot(w, s.queues[w].head));
  }

  lemma PopStep(c: Config, s: State, h: History, w: nat) returns (h': History)
    requires AtPop(c, s, h, w)
    ensures Inv(c, Step(c, s, w), h') && Transports(c, s, h, Step(c, s, w), h')
  {
    PopFacts(c, s, h, w);
    PopShape(c, s, w);
    h' := PopCases(c, s, h, w, Step(c, s, w));
  }

  /** The states around one step of PopHead. */
  ghost predicate PopTo(s: State, w: nat, s': State)
    requires w < |s.workers| && w < |s.queues|
  {
    var q, wk := s.queues[w], s.workers[w];
    && wk.pc.Act?
    && match wk.pc.m
       case PopStart =>
         s' == s.(workers := s.workers[w := if q.head == q.tail then Worker(0, Top)
                                            else Worker(wk.tasknum, Act(wk.pc.task, wk.pc.k, PopRead(q.head, q.tail)))])
       case PopRead(hd, tl) =>
         if hd == q.head && tl == q.tail then
           s' == s.(queues := s.queues[w := q.(head := q.head - 1)],
                    workers := s.workers[w := Worker(wk.tasknum, Act(wk.pc.task, wk.pc.k, PopWon(q.head)))])
         else s' == s.(workers := s.workers[w := Worker(wk.tasknum, Act(wk.pc.task, wk.pc.k, PopStart))])
       case PopWon(hd) =>
         var u := SlotAt(s, w, hd - 1);
         s' == SetWorker(s, w, u, Top).(traffic := s.traffic + [Taken(u, s.index)])
       case _ => false
  }

  lemma PopShape(c: Config, s: State, w: nat)
    requires c.Valid() && |s.queues| == |s.workers| == c.threads && w < c.threads && |s.counters| == |c.g.succ|
    requires IsAct(c, s.workers[w].pc) && MicroOk(c, s, w)
    requires 0 <= s.queues[w].tail <= s.queues[w].head < |s.queues[w].slots| <= MAX_SHORT
    requires var m := s.workers[w].pc.m; m.PopStart? || m.PopRead? || m.PopWon?
    requires NextAction(c, s.workers[w].pc.task, s.workers[w].pc.k) == Top
    ensures PopTo(s, w, Step(c, s, w))
  {
    var m, q := s.workers[w].pc.m, s.queues[w];
    if m.PopRead? {
      PackInjective(m.h, m.t, q.head, q.tail);
    }
    assert Step(c, s, w) == StepPop(c, s, w, s.workers[w].pc.task, s.workers[w].pc.k, m);
  }

  lemma PopCases(c: Config, s: State, h: History, w: nat, s': State) returns (h': History)
    requires AtPop(c, s, h, w) && PopTo(s, w, s')
    ensures Inv(c, s', h') && Transports(c, s, h, s', h')
  {
    var m, q := s.workers[w].pc.m, s.queues[w];
    if m.PopWon? {
      h' := PopTakes(c, s, h, w, s');
    } else if m.PopRead? && m.h == q.head && m.t == q.tail {
      h' := PopClaims(c, s, h, w, s');
    } else {
      PopLooks(c, s, h, w, s');
      h' := h;
    }
  }

  lemma PopTakes(c: Config, s: State, h: History, w: nat, s': State) returns (h': History)
    requires AtPop(c, s, h, w) && PopTo(s, w, s') && s.workers[w].pc.m.PopWon?
    ensures Inv(c, s', h') && Transports(c, s, h, s', h')
  {
    h' := TakeSends(c, s, h, w, ClaimedTask(s, w), s');
  }

  lemma PopClaims(c: Config, s: State, h: History, w: nat, s': State) returns (h': History)
    requires AtPop(c, s, h, w) && PopTo(s, w, s') && s.workers[w].pc.m == PopRead(s.queues[w].head, s.queues[w].tail)
    ensures Inv(c, s', h') && Transports(c, s, h, s', h')
  {
    var u := SlotAt(s, w, s.queues[w].head - 1);
    PopCasStep(c, s, h, w, s');
    h' := h.(loc := h.loc[u := Claimed(w)]);
    StaysInStage(c, s, h, s', u, Claimed(w));
  }

  lemma PopLooks(c: Config, s: State, h: History, w: nat, s': State)
    requires AtPop(c, s, h, w) && PopTo(s, w, s') && !s.workers[w].pc.m.PopWon?
    requires s.workers[w].pc.m != PopRead(s.queues[w].head, s.queues[w].tail)
    ensures Inv(c, s', h) && Transports(c, s, h, s', h)
  {
    PopQuietStep(c, s, h, w, s'.workers[w], s');
    SameStages(c, s, h, s', h);
  }

  lemma TakeSends(c: Config, s: State, h: History, w: nat, u: int, s': State) returns (h': History)
    requires AtSteal(c, s, h, w) || AtPop(c, s, h, w)
    requires Claims(s.workers[w].pc) && u == ClaimedTask(s, w)
    requires s' == SetWorker(s, w, u, Top).(traffic := s.traffic + [Taken(u, s.index)])
    ensures Inv(c, s', h') && Transports(c, s, h, s', h')
  {
    TakeClaimed(c, s, h, w, u, s');
    h' := h.(loc := h.loc[u := Carried(w)]);
    IsTaken(c, s, h, s', u, Carried(w));
  }

  lemma StealStep(c: Config, s: State, h: History, w: nat) returns (h': History)
    requires AtSteal(c, s, h, w)
    ensures Inv(c, Step(c, s, w), h') && Transports(c, s, h, Step(c, s, w), h')
  {
    assert WorkerOk(c, s, w);
    StealShape(c, s, w);
    h' := StealCases(c, s, h, w, Step(c, s, w));
  }

  /** The states around one step of PopTail. */
  ghost predicate StealTo(c: Config, s: State, w: nat, s': State)
    requires w < |s.workers| && |s.queues| == c.threads
  {
    match s.workers[w].pc
    case StealSnap(i) =>
      s' == s.(workers := s.workers[w := Worker(0,
             if c.threads <= i then Top
             else if s.queues[i].head == s.queues[i].tail then StealSnap(i + 1)
             else StealRead(i, s.queues[i].head, s.queues[i].tail))])
    case StealRead(i, hd, tl) =>
      && i < c.threads
      && var q := s.queues[i];
      if hd == q.head && tl == q.tail then
        s' == s.(queues := s.queues[i := q.(tail := q.tail + 1)], workers := s.workers[w := Worker(0, StealWon(i, q.tail))])
      else s' == s.(workers := s.workers[w := Worker(0, StealSnap(i))])
    case StealWon(i, pos) =>
      var u := SlotAt(s, i, pos);
      s' == SetWorker(s, w, u, Top).(traffic := s.traffic + [Taken(u, s.index)])
    case _ => false
  }

  lemma StealShape(c: Config, s: State, w: nat)
    requires c.Valid() && |s.queues| == |s.workers| == c.threads && w < c.threads && |s.counters| == |c.g.succ|
    requires WorkerOk(c, s, w) && var pc := s.workers[w].pc; pc.StealSnap? || pc.StealRead? || pc.StealWon?
    requires forall q :: 0 <= q < c.threads ==> 0 <= s.queues[q].tail <= s.queues[q].head < |s.queues[q].slots| <= MAX_SHORT
    ensures StealTo(c, s, w, Step(c, s, w))
  {
    var pc := s.workers[w].pc;
    if pc.StealRead? {
      PackInjective(pc.h, pc.t, s.queues[pc.i].head, s.queues[pc.i].tail);
    }
    assert Step(c, s, w) == StepSteal(c, s, w);
  }

  lemma StealCases(c: Config, s: State, h: History, w: nat, s': State) returns (h': History)
    requires AtSteal(c, s, h, w) && StealTo(c, s, w, s')
    ensures Inv(c, s', h') && Transports(c, s, h, s', h')
  {
    var pc := s.workers[w].pc;
    if pc.StealWon? {
      h' := TakeSends(c, s, h, w, SlotAt(s, pc.i, pc.pos), s');
    } else if pc.StealRead? && pc.h == s.queues[pc.i].head && pc.t == s.queues[pc.i].tail {
      StealCasStep(c, s, h, w, pc.i, s');
      var u := SlotAt(s, pc.i, s.queues[pc.i].tail);
      h' := h.(loc := h.loc[u := Claimed(w)]);
      StaysInStage(c, s, h, s', u, Claimed(w));
    } else {
      StealQuietStep(c, s, h, w, s'.workers[w], s');
      h' := h;
      SameStages(c, s, h, s', h');
    }
  }

  lemma InitStep(c: Config, s: State, h: History, w: nat) returns (h': History)
    requires Inv(c, s, h) && w < c.threads && IsInit(s.workers[w].pc)
    ensures Inv(c, Step(c, s, w), h') && Transports(c, s, h, Step(c, s, w), h')
  {
    assert WorkerOk(c, s, w);
    if s.workers[w].pc.InitPush? {
      RefillShape(c, s, w);
      h' := RefillCases(c, s, h, w, Step(c, s, w));
    } else {
      ResetCases(c, s, h, w, Step(c, s, w));
      h' := h;
      SameStages(c, s, h, Step(c, s, w), h');
    }
  }

  lemma ResetCases(c: Config, s: State, h: History, w: nat, s': State)
    requires Resets(c, s, h, w) && s' == StepInit(c, s, w)
    ensures Inv(c, s', h) && s'.traffic == s.traffic
  {
    assert WorkerOk(c, s, w);
    match s.workers[w].pc {
      case InitCount(_) => InitCountStep(c, s, h, w, s');
      case InitSlots(_, _) => InitSlotsStep(c, s, h, w, s');
      case InitCounter(_) => InitCounterStep(c, s, h, w, s');
    }
  }

  /** The states around one step of the refill. */
  ghost predicate RefillTo(c: Config, s: State, w: nat, s': State)
    requires w < |s.workers| && w < |s.queues| && s.workers[w].pc.InitPush?
  {
    var q, k, m := s.queues[w], s.workers[w].pc.k, s.workers[w].pc.m;
    if |c.g.ready| <= k then s' == SetWorker(s, w, 0, Top)
    else if m.Wrote? then s' == s.(workers := s.workers[w := Worker(s.workers[w].tasknum, InitPush(k, HeadRead(q.head)))])
    else if m.HeadRead? then
      s' == s.(queues := s.queues[w := q.(head := q.head + 1)],
               workers := s.workers[w := Worker(s.workers[w].tasknum, InitPush(k + 1, Begin))],
               traffic := s.traffic + [Sent(c.g.ready[k], s.index)])
    else
      0 <= q.head < |q.slots| &&
      s' == s.(queues := s.queues[w := q.(slots := q.slots[q.head := c.g.ready[k]])],
               workers := s.workers[w := Worker(s.workers[w].tasknum, InitPush(k, Wrote))])
  }

  lemma RefillShape(c: Config, s: State, w: nat)
    requires c.Valid() && |s.queues| == |s.workers| == c.threads && w < c.threads && |s.counters| == |c.g.succ|
    requires WorkerOk(c, s, w) && s.workers[w].pc.InitPush? && 0 <= s.queues[w].head < |s.queues[w].slots|
    ensures RefillTo(c, s, w, Step(c, s, w))
  {
    assert Step(c, s, w) == StepInit(c, s, w);
  }

  lemma RefillCases(c: Config, s: State, h: History, w: nat, s': State) returns (h': History)
    requires Inv(c, s, h) && w < c.threads && s.workers[w].pc.InitPush? && RefillTo(c, s, w, s')
    ensures Inv(c, s', h') && Transports(c, s, h, s', h')
  {
    assert WorkerOk(c, s, w);
    var k, m := s.workers[w].pc.k, s.workers[w].pc.m;
    if k == |c.g.ready| {
      h' := RefilledStep(c, s, h, w);
      SameStages(c, s, h, s', h');
    } else if m.HeadRead? {
      RefillPublishStep(c, s, h, w, s');
      h' := h.(loc := h.loc[c.g.ready[k] := Slot(w, s.queues[w].head)]);
      IsSent(c, s, h, s', c.g.ready[k], Slot(w, s.queues[w].head));
    } else {
      RefillWriteStep(c, s, h, w, s');
      h' := h;
      SameStages(c, s, h, s', h');
    }
  }

  /** Whatever worker moves, the invariant is kept. */
  lemma StepKeepsInv(c: Config, s: State, h: History, w: nat) returns (h': History)
    requires Inv(c, s, h) && w < c.threads
    ensures Inv(c, Step(c, s, w), h') && Transports(c, s, h, Step(c, s, w), h')
  {
    h' := h;
    match s.workers[w].pc {
      case Top =>
        LoopStep(c, s, h, w);
        SameStages(c, s, h, Step(c, s, w), h');
      case Exited =>
        LoopStep(c, s, h, w);
        SameStages(c, s, h, Step(c, s, w), h');
      case Switch(_) => h' := SwitchStep(c, s, h, w);
      case Run(_, _) =>
        FinishStep(c, s, h, w);
        SameStages(c, s, h, Step(c, s, w), h');
      case Act(_, _, m) =>
        if m.Begin? {
          var a := ActionOf(c, s, h, w);
          if a.Skip? || a.ResetTask? || a.GetReady? {
            PassiveStep(c, s, h, w);
            SameStages(c, s, h, Step(c, s, w), h');
          } else {
            h' := ActiveStep(c, s, h, w);
          }
        } else if m.ToPush? || m.Wrote? || m.HeadRead? {
          h' := PushStep(c, s, h, w);
        } else {
          h' := PopStep(c, s, h, w);
        }
      case StealSnap(_) => h' := StealStep(c, s, h, w);
      case StealRead(_, _, _) => h' := StealStep(c, s, h, w);
      case StealWon(_, _) => h' := StealStep(c, s, h, w);
      case InitCount(_) => h' := InitStep(c, s, h, w);
      case InitSlots(_, _) => h' := InitStep(c, s, h, w);
      case InitCounter(_) => h' := InitStep(c, s, h, w);
      case InitPush(_, _) => h' := InitStep(c, s, h, w);
    }
  }
}
