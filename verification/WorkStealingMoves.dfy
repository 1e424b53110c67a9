/** Steps that move a task from one place to another: publication by PushHead, the CAS of
    PopHead and PopTail, and the read of the claimed slot. */
module WorkStealingMoves {
  import opened TaskGraph
  import opened WorkStealing
  import opened WorkStealingInvariant
  import opened WorkStealingSteps

  /** Worker `v` has made the same progress with the task that keeps it busy. */
  ghost predicate SameBusy(c: Config, wk: Worker, wk': Worker)
    requires c.Valid()
  {
    && BusyTask(c, wk') == BusyTask(c, wk)
    && (BusyTask(c, wk) != 0 ==>
          && (wk.pc.Act? <==> wk'.pc.Act?)
          && (wk.pc.Act? ==> forall j :: 0 <= j < |c.g.succ[wk.pc.task]| ==>
                (Passed(wk.pc.k, wk.pc.m, c.g.Position(wk.pc.task, j))
                 <==> Passed(wk'.pc.k, wk'.pc.m, c.g.Position(wk.pc.task, j)))))
  }

  lemma OneMoves(c: Config, s: State, w: nat, wk: Worker, s': State)
    requires c.Valid() && w < |s.workers| && s'.workers == s.workers[w := wk] && SameBusy(c, s.workers[w], wk)
    ensures forall v :: 0 <= v < |s.workers| ==> SameBusy(c, s.workers[v], s'.workers[v])
  {
  }

  lemma SameBusyProgress(c: Config, s: State, h: History, s': State, h': History, t: int)
    requires c.Valid() && |s'.workers| == |s.workers| && Places(c, s, h) && c.g.IsTask(t)
    requires forall v :: 0 <= v < |s.workers| ==> SameBusy(c, s.workers[v], s'.workers[v])
    requires t in h.loc <==> t in h'.loc
    requires t in h.loc ==> (h.loc[t].Busy? || h'.loc[t].Busy? ==> h'.loc[t] == h.loc[t])
    ensures SameProgress(c, s, h, s', h', t)
  {
    if t in h.loc && h.loc[t].Busy? {
      BusyWorker(c, s, h, t);
      assert SameBusy(c, s.workers[h.loc[t].w], s'.workers[h.loc[t].w]);
    }
  }

  lemma BusyProgressKept(c: Config, s: State, h: History, s': State, h': History)
    requires h' == h.(initer := h'.initer)
    requires c.Valid() && |s'.workers| == |s.workers| && |h.pend| == |c.g.succ|
    requires Places(c, s, h) && Progress(c, s, h) && s'.log == s.log && s'.index == s.index
    requires forall v :: 0 <= v < |s.workers| ==> SameBusy(c, s.workers[v], s'.workers[v])
    ensures Progress(c, s', h')
  {
    forall t | c.g.IsTask(t) ensures SameProgress(c, s, h, s', h', t) {
      SameBusyProgress(c, s, h, s', h', t);
    }
    ProgressKept(c, s, h, s', h');
  }

  /** Everything in the invariant that does not mention queues or registers survives the move of
      task `u` to place `pl`. */
  lemma Moved(c: Config, s: State, h: History, s': State, u: int, pl: Place)
    requires Inv(c, s, h) && |s'.workers| == |s.workers|
    requires s'.log == s.log && s'.index == s.index && s'.counters == s.counters
    requires u in h.loc && !h.loc[u].Busy? && !pl.Busy?
    requires forall p, x :: At(c, s', p, x) <==> if x == u then p == pl else At(c, s, p, x)
    requires forall v :: 0 <= v < |s.workers| ==> SameBusy(c, s.workers[v], s'.workers[v])
    ensures Places(c, s', h.(loc := h.loc[u := pl]))
    ensures Progress(c, s', h.(loc := h.loc[u := pl]))
  {
    var h' := h.(loc := h.loc[u := pl]);
    assert Places(c, s', h') by {
      forall x | x in h'.loc ensures At(c, s', h'.loc[x], x) {
        if x != u {
          assert At(c, s, h.loc[x], x);
        }
      }
    }
    assert Progress(c, s', h') by {
      forall t | c.g.IsTask(t) ensures SameProgress(c, s, h, s', h', t) {
        SameBusyProgress(c, s, h, s', h', t);
      }
      ProgressKept(c, s, h, s', h');
    }
  }

  /** Registers change but no queue is pushed to, and `u` moves to a place where it counts as pushed. */
  lemma PrefixesMoved(c: Config, s: State, h: History, s': State, u: int, pl: Place)
    requires |h.pend| == |c.g.succ| && |s'.workers| == |s.workers| && |s'.queues| == |s.queues|
    requires forall q :: 0 <= q < |s.queues| ==>
      && 0 <= s'.queues[q].head <= s.queues[q].head <= |s.queues[q].slots|
      && s'.queues[q].slots == s.queues[q].slots
    requires 0 <= h.initer < |s.workers| ==> s'.workers[h.initer].pc == s.workers[h.initer].pc
    requires Prefixes(c, s, h)
    requires !pl.Pushing? && !pl.Unpushed?
    ensures Prefixes(c, s', h.(loc := h.loc[u := pl]))
  {
    var h' := h.(loc := h.loc[u := pl]);
    forall q | 0 <= q < |s.queues| ensures Fresh(s', h', q) <==> Fresh(s, h, q) {}
  }

  lemma CountersMoved(c: Config, s: State, h: History, s': State, loc: map<int, Place>)
    requires c.Valid() && |h.pend| == |c.g.succ| == |s.counters| && |s'.workers| == |s.workers| && s'.counters == s.counters
    requires 0 <= h.initer < |s.workers| ==> s'.workers[h.initer].pc == s.workers[h.initer].pc
    requires Counters(c, s, h)
    ensures Counters(c, s', h.(loc := loc))
  {
    var h' := h.(loc := loc);
    forall t | c.g.IsTask(t) ensures Stale(c, s', h', t) <==> Stale(c, s, h, t) {}
  }

  /** CAS compares one 32-bit word, which is to compare both halves. */
  lemma PackInjective(h1: int, t1: int, h2: int, t2: int)
    requires 0 <= h1 <= MAX_SHORT && 0 <= t1 <= MAX_SHORT && 0 <= h2 <= MAX_SHORT && 0 <= t2 <= MAX_SHORT
    ensures Pack(h1, t1) == Pack(h2, t2) <==> h1 == h2 && t1 == t2
  {
    assert h1 % 0x1_0000 == h1 && h2 % 0x1_0000 == h2 && t1 % 0x1_0000 == t1 && t2 % 0x1_0000 == t2;
  }

  // ---------------------------------------------------------------------------------------
  // The read after a successful CAS
  // ---------------------------------------------------------------------------------------

  /** The worker puts the task it claimed into its tasknum. */
  lemma TakeStep(c: Config, s: State, h: History, w: nat, u: int, s': State)
    requires Inv(c, s, h) && w < c.threads
    requires ClaimedTask(s, w) == u && c.g.IsTask(u)
    requires CarriedTask(s.workers[w]) == 0 && BusyTask(c, s.workers[w]) == 0
    requires PushedTask(c, s.workers[w]) == 0 && !IsInit(s.workers[w].pc)
    requires s' == SetWorker(s, w, u, Top).(traffic := s'.traffic)
    ensures u in h.loc && h.loc[u] == Claimed(w)
    ensures Inv(c, s', h.(loc := h.loc[u := Carried(w)]))
  {
    var h' := h.(loc := h.loc[u := Carried(w)]);
    assert At(c, s, Claimed(w), u);
    assert Places(c, s', h') && Progress(c, s', h') by {
      TakePlaces(c, s, h, w, u, s');
      OneMoves(c, s, w, Worker(u, Top), s');
      Moved(c, s, h, s', u, Carried(w));
    }
    assert Workers(c, s', h') by { OtherWorkersKept(c, s, h, w, s'.workers[w], s', h'); }
    assert Counters(c, s', h') by { CountersMoved(c, s, h, s', h'.loc); }
    assert Prefixes(c, s', h') by { PrefixesMoved(c, s, h, s', u, Carried(w)); }
    assert Resetting(c, s', h') by {
      assert forall q :: 0 <= q < |s.queues| ==> (Fresh(s', h', q) <==> Fresh(s, h, q));
    }
  }

  lemma TakePlaces(c: Config, s: State, h: History, w: nat, u: int, s': State)
    requires c.Valid() && Places(c, s, h) && w < |s.workers|
    requires ClaimedTask(s, w) == u && u != 0
    requires CarriedTask(s.workers[w]) == 0 && BusyTask(c, s.workers[w]) == 0
    requires PushedTask(c, s.workers[w]) == 0 && !IsInit(s.workers[w].pc)
    requires s'.queues == s.queues && s'.workers == s.workers[w := Worker(u, Top)]
    ensures forall p, x :: At(c, s', p, x) <==> if x == u then p == Carried(w) else At(c, s, p, x)
  {
    assert At(c, s, Claimed(w), u);
    forall p, x ensures At(c, s', p, x) <==> if x == u then p == Carried(w) else At(c, s, p, x) {
      if x == u {
        assert At(c, s, p, u) ==> p == Claimed(w);
      }
    }
  }

  // ---------------------------------------------------------------------------------------
  // The CAS of PopHead and PopTail
  // ---------------------------------------------------------------------------------------

  /** The queue word after a successful pop at position `pos`: tail or head moves over it. */
  ghost predicate PoppedAt(q: Queue, q': Queue, pos: int) {
    && q.tail <= pos < q.head && q'.slots == q.slots
    && ((q'.head == q.head && pos == q.tail && q'.tail == q.tail + 1)
        || (q'.tail == q.tail && pos == q.head - 1 && q'.head == pos))
  }

  /** Worker `w` takes the task at position `pos` of queue `i` out of the window. */
  ghost predicate Claiming(c: Config, s: State, w: nat, i: nat, pos: int, s': State)
    requires c.Valid()
  {
    && |s.workers| == |s.queues| == |s'.workers| == |s'.queues| == c.threads && w < c.threads && i < c.threads
    && s' == s.(queues := s.queues[i := s'.queues[i]], workers := s.workers[w := s'.workers[w]])
    && PoppedAt(s.queues[i], s'.queues[i], pos) && (s'.queues[i].head != s.queues[i].head ==> i == w)
    && CarriedTask(s'.workers[w]) == CarriedTask(s.workers[w]) && SameBusy(c, s.workers[w], s'.workers[w])
    && PushedTask(c, s'.workers[w]) == 0 && PushedTask(c, s.workers[w]) == 0 && ClaimedTask(s, w) == 0
    && !IsInit(s.workers[w].pc) && !IsInit(s'.workers[w].pc)
    && ClaimedTask(s', w) == SlotAt(s, i, pos)
  }

  /** Then the task is claimed by that worker alone. */
  lemma ClaimStep(c: Config, s: State, h: History, w: nat, i: nat, pos: int, s': State)
    requires Inv(c, s, h) && Claiming(c, s, w, i, pos, s') && WorkerOk(c, s', w)
    ensures var u := SlotAt(s, i, pos);
      u in h.loc && h.loc[u] == Slot(i, pos) && Inv(c, s', h.(loc := h.loc[u := Claimed(w)]))
  {
    var u := SlotAt(s, i, pos);
    ClaimPlaces(c, s, h, w, i, pos, s');
    ClaimRest(c, s, h, w, i, pos, s', u, h.(loc := h.loc[u := Claimed(w)]));
  }

  lemma ClaimPlaces(c: Config, s: State, h: History, w: nat, i: nat, pos: int, s': State)
    requires Inv(c, s, h) && Claiming(c, s, w, i, pos, s')
    ensures var u := SlotAt(s, i, pos);
      && u in h.loc && h.loc[u] == Slot(i, pos)
      && Places(c, s', h.(loc := h.loc[u := Claimed(w)])) && Progress(c, s', h.(loc := h.loc[u := Claimed(w)]))
  {
    var u := SlotAt(s, i, pos);
    ClaimedSlotIsTask(c, s, h, i, pos);
    assert At(c, s, Slot(i, pos), u);
    ClaimMoves(c, s, h, w, i, pos, s');
    OneMoves(c, s, w, s'.workers[w], s');
    Moved(c, s, h, s', u, Claimed(w));
  }

  lemma ClaimRest(c: Config, s: State, h: History, w: nat, i: nat, pos: int, s': State, u: int, h': History)
    requires c.Valid() && |h.pend| == |c.g.succ| == |s.counters| && Claiming(c, s, w, i, pos, s') && WorkerOk(c, s', w)
    requires Workers(c, s, h) && Counters(c, s, h) && Resetting(c, s, h)
    requires forall q :: 0 <= q < |s.queues| ==> 0 <= s.queues[q].tail <= s.queues[q].head <= |s.queues[q].slots|
    requires Prefixes(c, s, h) && u in h.loc && h.loc[u].Slot? && h' == h.(loc := h.loc[u := Claimed(w)])
    ensures Workers(c, s', h') && Counters(c, s', h') && Prefixes(c, s', h') && Resetting(c, s', h')
  {
    ClaimWorkers(c, s, h, w, i, pos, s', h');
    CountersMoved(c, s, h, s', h'.loc);
    PrefixesMoved(c, s, h, s', u, Claimed(w));
    ClaimResetting(c, s, h, s', h', u, i, s'.queues[i], pos);
  }

  lemma ClaimMoves(c: Config, s: State, h: History, w: nat, i: nat, pos: int, s': State)
    requires c.Valid() && Places(c, s, h) && Claiming(c, s, w, i, pos, s') && SlotAt(s, i, pos) != 0
    ensures forall p, x :: At(c, s', p, x) <==> if x == SlotAt(s, i, pos) then p == Claimed(w) else At(c, s, p, x)
  {
    var u := SlotAt(s, i, pos);
    assert At(c, s, Slot(i, pos), u);
    forall p, x ensures At(c, s', p, x) <==> if x == u then p == Claimed(w) else At(c, s, p, x) {
      ClaimAt(c, s, w, i, pos, s', p, x);
      assert At(c, s, p, x) ==> x in h.loc && h.loc[x] == p;
    }
  }

  lemma ClaimAt(c: Config, s: State, w: nat, i: nat, pos: int, s': State, p: Place, x: int)
    requires c.Valid() && Claiming(c, s, w, i, pos, s') && SlotAt(s, i, pos) != 0
    ensures At(c, s', p, x) <==>
      (p == Claimed(w) && x == SlotAt(s, i, pos)) || (At(c, s, p, x) && p != Slot(i, pos))
  {
    match p {
      case Slot(q, y) => assert SlotAt(s', q, y) == SlotAt(s, q, y);
      case Claimed(v) =>
        if v < |s.workers| && v != w {
          forall q, y ensures SlotAt(s', q, y) == SlotAt(s, q, y) {}
        }
      case _ =>
    }
  }

  lemma ClaimResetting(c: Config, s: State, h: History, s': State, h': History, u: int, i: nat, q: Queue, pos: int)
    requires u in h.loc && !h.loc[u].Unpushed?
    requires i < |s.queues| && PoppedAt(s.queues[i], q, pos) && s'.queues == s.queues[i := q]
    requires Resetting(c, s, h) && h' == h.(loc := h'.loc)
    requires |s.workers| == |s'.workers| && forall v :: 0 <= v < |s.workers| && v == h.initer ==> s'.workers[v] == s.workers[v]
    ensures Resetting(c, s', h')
  {
    assert forall y :: 0 <= y < |s.queues| ==> (Fresh(s', h', y) <==> Fresh(s, h, y));
  }

  lemma ClaimWorkers(c: Config, s: State, h: History, w: nat, i: nat, pos: int, s': State, h': History)
    requires c.Valid() && Claiming(c, s, w, i, pos, s') && WorkerOk(c, s', w) && Workers(c, s, h) && h'.initer == h.initer
    ensures Workers(c, s', h')
  {
    forall v | 0 <= v < c.threads && v != w ensures WorkerOk(c, s', v) {
      assert WorkerOk(c, s, v);
      ClaimOtherWorker(c, s, i, s', v);
    }
  }

  lemma ClaimOtherWorker(c: Config, s: State, i: nat, s': State, v: nat)
    requires c.Valid() && |s.workers| == |s.queues| == |s'.workers| == c.threads && v < c.threads && i < c.threads
    requires |s'.queues| == c.threads && s'.queues == s.queues[i := s'.queues[i]]
    requires s'.queues[i].slots == s.queues[i].slots && s'.queues[i].tail >= s.queues[i].tail
    requires s'.queues[i].head == s.queues[i].head || i != v
    requires s'.workers[v] == s.workers[v] && s'.index == s.index && WorkerOk(c, s, v)
    ensures WorkerOk(c, s', v)
  {
    var pc := s.workers[v].pc;
    if pc.StealWon? {
      assert SlotAt(s', pc.i, pc.pos) == SlotAt(s, pc.i, pc.pos);
    } else if pc.Act? {
      assert MicroOk(c, s, v);
      MicroKept(c, s, s', v);
    } else if pc.InitPush? {
      assert SlotAt(s', v, s.queues[v].head) == SlotAt(s, v, s.queues[v].head);
    }
  }

  /** Inside an action a worker depends on its own queue only. */
  lemma MicroKept(c: Config, s: State, s': State, v: nat)
    requires c.Valid() && v < |s.workers| && v < |s.queues| && v < |s'.workers| && v < |s'.queues|
    requires s'.workers[v] == s.workers[v] && IsAct(c, s.workers[v].pc) && MicroOk(c, s, v)
    requires s'.queues[v].slots == s.queues[v].slots && s'.queues[v].head == s.queues[v].head
    ensures MicroOk(c, s', v)
  {
    forall x ensures SlotAt(s', v, x) == SlotAt(s, v, x) {}
  }

  lemma ClaimedSlotIsTask(c: Config, s: State, h: History, i: nat, pos: int)
    requires Inv(c, s, h) && i < c.threads && s.queues[i].tail <= pos < s.queues[i].head
    ensures SlotAt(s, i, pos) != 0
  {
    assert Fresh(s, h, i);
    assert WasPushed(c, h, s.queues[i].slots[pos]);
  }
}
