/** What the queues transport: every task that becomes visible in a queue is taken out of it exactly once. */
module WorkStealingTraffic {
  import opened Sequences
  import opened TaskGraph
  import opened WorkStealing
  import opened WorkStealingInvariant

  /** The way of a task through the queues in one cycle: not in a queue yet, in a queue or claimed from it, and
      never again in a queue. */
  datatype Stage = Before | Queued | After

  ghost function StageOf(h: History, t: int): Stage
    requires 0 <= t < |h.pend|
  {
    if h.pend[t] != {} then Before
    else if t !in h.loc then After
    else
      match h.loc[t]
      case Pushing(_) => Before
      case Unpushed(_, _) => Before
      case Slot(_, _) => Queued
      case Claimed(_) => Queued
      case _ => After
  }

  /** The cycle goes on, and no task enters or leaves a queue. */
  ghost predicate Drifts(c: Config, h: History, h': History)
    requires |h.pend| == |h'.pend| == |c.g.succ|
  {
    && h'.cyc == h.cyc
    && forall t :: c.g.IsTask(t) ==>
         StageOf(h', t) == StageOf(h, t) || (StageOf(h, t).Before? && StageOf(h', t).After?)
  }

  /** The next cycle begins with all tasks out of the queues. */
  ghost predicate Restarts(c: Config, h: History, h': History)
    requires |h.pend| == |h'.pend| == |c.g.succ|
  {
    h'.cyc == h.cyc + 1 && forall t :: c.g.IsTask(t) ==> StageOf(h, t).After? && StageOf(h', t).Before?
  }

  /** One task enters a queue, or leaves it. */
  ghost predicate Moves(c: Config, h: History, h': History, e: Transfer)
    requires |h.pend| == |h'.pend| == |c.g.succ|
  {
    && h'.cyc == h.cyc && c.g.IsTask(e.task) && e.index == Offset(c, h.cyc)
    && (if e.Sent? then StageOf(h, e.task).Before? && StageOf(h', e.task).Queued?
        else StageOf(h, e.task).Queued? && StageOf(h', e.task).After?)
    && forall t :: c.g.IsTask(t) && t != e.task ==> StageOf(h', t) == StageOf(h, t)
  }

  ghost predicate Transports(c: Config, s: State, h: History, s': State, h': History) {
    && |h.pend| == |h'.pend| == |c.g.succ|
    && if s'.traffic == s.traffic then Drifts(c, h, h') || Restarts(c, h, h')
       else exists e :: s'.traffic == s.traffic + [e] && Moves(c, h, h', e)
  }

  /** Nothing is transported twice, and nothing is taken out before it was put in. */
  ghost predicate Paired(traffic: seq<Transfer>) {
    && NoDuplicates(traffic)
    && forall a :: 0 <= a < |traffic| && traffic[a].Taken? ==> Sent(traffic[a].task, traffic[a].index) in traffic[..a]
  }

  ghost predicate Traffic(c: Config, s: State, h: History)
    requires |h.pend| == |c.g.succ|
  {
    var now := Offset(c, h.cyc);
    && Paired(s.traffic)
    && (forall e :: e in s.traffic ==> c.g.IsTask(e.task) && e.index <= now)
    && (forall e :: e in s.traffic && e.Sent? && e.index < now ==> Taken(e.task, e.index) in s.traffic)
    && (forall t :: c.g.IsTask(t) && Sent(t, now) in s.traffic ==> !StageOf(h, t).Before?)
    && (forall t :: c.g.IsTask(t) ==>
          (StageOf(h, t).Queued? <==> Sent(t, now) in s.traffic && Taken(t, now) !in s.traffic))
  }

  lemma PairedAppend(traffic: seq<Transfer>, e: Transfer)
    requires Paired(traffic) && e !in traffic && (e.Taken? ==> Sent(e.task, e.index) in traffic)
    ensures Paired(traffic + [e])
  {
    var t' := traffic + [e];
    NoDuplicatesAppend(traffic, e);
    forall a | 0 <= a < |t'| && t'[a].Taken? ensures Sent(t'[a].task, t'[a].index) in t'[..a] {
      assert t'[..a] == if a < |traffic| then traffic[..a] else traffic;
    }
  }

  /** Taken needs Sent. */
  lemma TakenWasSent(traffic: seq<Transfer>, t: int, index: int)
    requires Paired(traffic) && Taken(t, index) in traffic
    ensures Sent(t, index) in traffic
  {
    var a :| 0 <= a < |traffic| && traffic[a] == Taken(t, index);
    assert Sent(traffic[a].task, traffic[a].index) in traffic[..a];
  }

  lemma DriftKeeps(c: Config, s: State, h: History, s': State, h': History)
    requires |h.pend| == |h'.pend| == |c.g.succ| && s'.traffic == s.traffic && Traffic(c, s, h) && Drifts(c, h, h')
    ensures Traffic(c, s', h')
  {
  }

  lemma RestartKeeps(c: Config, s: State, h: History, s': State, h': History)
    requires |h.pend| == |h'.pend| == |c.g.succ| && s'.traffic == s.traffic && Traffic(c, s, h) && Restarts(c, h, h')
    requires c.vec > 0
    ensures Traffic(c, s', h')
  {
    var now, next := Offset(c, h.cyc), Offset(c, h'.cyc);
    assert next == now + c.vec;
    forall e | e in s.traffic && e.Sent? ensures Taken(e.task, e.index) in s.traffic {
      assert !StageOf(h, e.task).Queued?;
    }
  }

  lemma MoveKeeps(c: Config, s: State, h: History, s': State, h': History, e: Transfer)
    requires |h.pend| == |h'.pend| == |c.g.succ| && s'.traffic == s.traffic + [e]
    requires Traffic(c, s, h) && Moves(c, h, h', e)
    ensures Traffic(c, s', h')
  {
    assert e !in s.traffic;
    PairedAppend(s.traffic, e);
    if e.Sent? && Taken(e.task, e.index) in s.traffic {
      TakenWasSent(s.traffic, e.task, e.index);
      assert false;
    }
    forall t | c.g.IsTask(t)
      ensures Sent(t, e.index) in s'.traffic ==> !StageOf(h', t).Before?
      ensures StageOf(h', t).Queued? <==> Sent(t, e.index) in s'.traffic && Taken(t, e.index) !in s'.traffic
    {
      MovesTask(c, s, h, s', h', e, t);
    }
  }

  lemma MovesTask(c: Config, s: State, h: History, s': State, h': History, e: Transfer, t: int)
    requires |h.pend| == |h'.pend| == |c.g.succ| && s'.traffic == s.traffic + [e] && c.g.IsTask(t)
    requires Moves(c, h, h', e) && e !in s.traffic && (e.Sent? ==> Taken(e.task, e.index) !in s.traffic)
    requires Sent(t, e.index) in s.traffic ==> !StageOf(h, t).Before?
    requires StageOf(h, t).Queued? <==> Sent(t, e.index) in s.traffic && Taken(t, e.index) !in s.traffic
    ensures Sent(t, e.index) in s'.traffic ==> !StageOf(h', t).Before?
    ensures StageOf(h', t).Queued? <==> Sent(t, e.index) in s'.traffic && Taken(t, e.index) !in s'.traffic
  {
    assert s'.traffic[|s.traffic|] == e;
  }

  // ---------------------------------------------------------------------------------------
  // How the steps of the workers move tasks
  // ---------------------------------------------------------------------------------------

  lemma SameStages(c: Config, s: State, h: History, s': State, h': History)
    requires |h.pend| == |c.g.succ| && s'.traffic == s.traffic
    requires h'.pend == h.pend && h'.loc == h.loc && h'.cyc == h.cyc
    ensures Transports(c, s, h, s', h')
  {
    assert Drifts(c, h, h');
  }

  /** The task at a place does not change its stage. */
  lemma StaysInStage(c: Config, s: State, h: History, s': State, u: int, pl: Place)
    requires |h.pend| == |c.g.succ| && s'.traffic == s.traffic && u in h.loc
    requires (h.loc[u].Slot? && pl.Claimed?) || (h.loc[u].Carried? && pl.Busy?)
    ensures Transports(c, s, h, s', h.(loc := h.loc[u := pl]))
  {
    assert Drifts(c, h, h.(loc := h.loc[u := pl]));
  }

  /** Only a current task can be anywhere. */
  lemma PlacedNow(c: Config, s: State, h: History, u: int)
    requires c.Valid() && |h.pend| == |c.g.succ| && Released(c, h) && Index(c, s, h) && u in h.loc
    ensures c.g.IsTask(u) && h.pend[u] == {} && s.index == Offset(c, h.cyc)
  {
  }

  lemma IsSent(c: Config, s: State, h: History, s': State, u: int, pl: Place)
    requires c.Valid() && |h.pend| == |c.g.succ| && Released(c, h) && Index(c, s, h) && u in h.loc
    requires s'.traffic == s.traffic + [Sent(u, s.index)]
    requires (h.loc[u].Pushing? || h.loc[u].Unpushed?) && pl.Slot?
    ensures Transports(c, s, h, s', h.(loc := h.loc[u := pl]))
  {
    PlacedNow(c, s, h, u);
    var e := Sent(u, s.index);
    assert s'.traffic[|s.traffic|] == e;
    assert s'.traffic == s.traffic + [e] && Moves(c, h, h.(loc := h.loc[u := pl]), e);
  }

  lemma IsTaken(c: Config, s: State, h: History, s': State, u: int, pl: Place)
    requires c.Valid() && |h.pend| == |c.g.succ| && Released(c, h) && Index(c, s, h) && u in h.loc
    requires s'.traffic == s.traffic + [Taken(u, s.index)]
    requires h.loc[u].Claimed? && pl.Carried?
    ensures Transports(c, s, h, s', h.(loc := h.loc[u := pl]))
  {
    PlacedNow(c, s, h, u);
    var e := Taken(u, s.index);
    assert s'.traffic[|s.traffic|] == e;
    assert s'.traffic == s.traffic + [e] && Moves(c, h, h.(loc := h.loc[u := pl]), e);
  }

  /** Task `t` activates task `u`, and retires if it was its last activation. */
  lemma Activation(c: Config, s: State, h: History, s': State, h': History, t: int, u: int)
    requires |h.pend| == |c.g.succ| == |h'.pend| && s'.traffic == s.traffic && h'.cyc == h.cyc
    requires c.g.IsTask(t) && c.g.IsTask(u) && t in h.loc && h.loc[t].Busy? && h.pend[t] == {} && t in h.pend[u]
    requires h'.pend == h.pend[u := h.pend[u] - {t}]
    requires forall x :: c.g.IsTask(x) && x != t && x != u ==>
      (x in h'.loc <==> x in h.loc) && (x in h.loc ==> h'.loc[x] == h.loc[x])
    requires t in h'.loc ==> h'.loc[t] == h.loc[t]
    requires h'.pend[u] == {} ==> u in h'.loc && (h'.loc[u].Carried? || h'.loc[u].Pushing?)
    ensures Transports(c, s, h, s', h')
  {
    assert Drifts(c, h, h');
  }

  lemma EndOfCycle(c: Config, s: State, h: History, s': State, h': History, w: nat)
    requires |h.pend| == |c.g.succ| == |h'.pend| && s'.traffic == s.traffic && c.g.IsTask(LAST_TASK_INDEX)
    requires h.loc == map[LAST_TASK_INDEX := Carried(w)] && h.pend[LAST_TASK_INDEX] == {}
    requires forall t :: c.g.IsTask(t) && t != LAST_TASK_INDEX ==> Retired(h, t)
    requires if h'.cyc == h.cyc then h' == h.(loc := map[])
             else h'.cyc == h.cyc + 1 && forall t :: c.g.IsTask(t) ==> StageOf(h', t).Before?
    ensures Transports(c, s, h, s', h')
  {
    if h'.cyc == h.cyc {
      assert Drifts(c, h, h');
    } else {
      assert Restarts(c, h, h');
    }
  }

  lemma TransportKeeps(c: Config, s: State, h: History, s': State, h': History)
    requires |h.pend| == |c.g.succ| && c.vec > 0 && Traffic(c, s, h) && Transports(c, s, h, s', h')
    ensures |h'.pend| == |c.g.succ| && Traffic(c, s', h')
  {
    if s'.traffic != s.traffic {
      var e :| s'.traffic == s.traffic + [e] && Moves(c, h, h', e);
      MoveKeeps(c, s, h, s', h', e);
    } else if Drifts(c, h, h') {
      DriftKeeps(c, s, h, s', h');
    } else {
      RestartKeeps(c, s, h, s', h');
    }
  }
}
