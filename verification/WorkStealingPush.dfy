/** The two writes of PushHead, whether a task activates a successor or the end task refills its
    queue. */
module WorkStealingPush {
  import opened Sequences
  import opened TaskGraph
  import opened WorkStealing
  import opened WorkStealingInvariant
  import opened WorkStealingSteps
  import opened WorkStealingMoves

  /** Worker `w` is inside PushHead with item `u`. */
  ghost predicate PushesItem(c: Config, s: State, h: History, w: nat, u: int) {
    && w < |s.workers| && u in h.loc
    && if IsInit(s.workers[w].pc) then
         s.workers[w].pc.InitPush? && h.loc[u] == Unpushed(w, s.workers[w].pc.k)
       else h.loc[u] == Pushing(w)
  }

  lemma PushQueueIsFresh(c: Config, s: State, h: History, w: nat, u: int)
    requires Inv(c, s, h) && PushesItem(c, s, h, w, u)
    ensures forall q :: 0 <= q < |s.queues| ==> Fresh(s, h, q)
    ensures forall t :: !Stale(c, s, h, t)
    ensures u !in s.queues[w].slots[..s.queues[w].head]
    ensures s.queues[w].head + 1 < |c.g.succ|
    ensures IsInit(s.workers[w].pc) ==> h.initer == w
  {
    PushesNow(c, s, h, w, u);
    RoomToPush(c, s, h, w, u);
  }

  lemma PushesNow(c: Config, s: State, h: History, w: nat, u: int)
    requires c.Valid() && |s.workers| == |s.queues| == c.threads
    requires Workers(c, s, h) && Resetting(c, s, h) && Places(c, s, h) && PushesItem(c, s, h, w, u)
    ensures forall q :: 0 <= q < |s.queues| ==> Fresh(s, h, q)
    ensures forall t :: !Stale(c, s, h, t)
    ensures IsInit(s.workers[w].pc) ==> h.initer == w
  {
    assert At(c, s, h.loc[u], u);
  }

  /** The slots below head hold different tasks, and not this one. */
  lemma RoomToPush(c: Config, s: State, h: History, w: nat, u: int)
    requires |h.pend| == |c.g.succ| && w < |s.queues| && Fresh(s, h, w)
    requires forall q :: 0 <= q < |s.queues| ==> 0 <= s.queues[q].head <= |s.queues[q].slots|
    requires Prefixes(c, s, h) && u in h.loc && c.g.IsTask(u) && (h.loc[u].Pushing? || h.loc[u].Unpushed?)
    ensures u !in s.queues[w].slots[..s.queues[w].head]
    ensures s.queues[w].head + 1 < |c.g.succ|
  {
    var q := s.queues[w];
    forall x | 0 <= x < q.head ensures 1 <= q.slots[x] < |c.g.succ| && q.slots[x] != u {
      assert WasPushed(c, h, q.slots[x]);
    }
    DistinctBound(q.slots[..q.head] + [u], 1, |c.g.succ|);
  }

  /** Same registers as far as tasks are concerned. */
  ghost predicate SameHands(c: Config, s: State, w: nat, wk: Worker)
    requires c.Valid() && w < |s.workers|
  {
    && CarriedTask(wk) == CarriedTask(s.workers[w]) && SameBusy(c, s.workers[w], wk)
    && !Claims(wk.pc) && !Claims(s.workers[w].pc)
    && (IsInit(wk.pc) <==> IsInit(s.workers[w].pc))
  }

  // ---------------------------------------------------------------------------------------
  // fTaskList[Head(fCounter)] = item
  // ---------------------------------------------------------------------------------------

  lemma WriteWorkers(c: Config, s: State, h: History, w: nat, u: int, wk: Worker, s': State)
    requires c.Valid() && |s.queues| == |s.workers| == c.threads && w < c.threads && Workers(c, s, h)
    requires forall i :: 0 <= i < c.threads ==> 0 <= s.queues[i].tail <= s.queues[i].head < |s.queues[i].slots|
    requires s'.queues == s.queues[w := s.queues[w].(slots := s.queues[w].slots[s.queues[w].head := u])]
    requires s'.workers == s.workers[w := wk] && s'.index == s.index
    requires (IsInit(wk.pc) <==> IsInit(s.workers[w].pc)) && (IsInit(wk.pc) ==> h.initer == w)
    requires WorkerOk(c, s', w)
    ensures Workers(c, s', h)
  {
    forall v | 0 <= v < c.threads && v != w ensures WorkerOk(c, s', v) {
      assert WorkerOk(c, s, v);
      WriteOtherWorker(c, s, w, u, wk, s', v);
    }
  }

  lemma WriteOtherWorker(c: Config, s: State, w: nat, u: int, wk: Worker, s': State, v: nat)
    requires c.Valid() && |s.queues| == |s.workers| == c.threads && w < c.threads
    requires forall i :: 0 <= i < c.threads ==> 0 <= s.queues[i].tail <= s.queues[i].head < |s.queues[i].slots|
    requires s'.queues == s.queues[w := s.queues[w].(slots := s.queues[w].slots[s.queues[w].head := u])]
    requires s'.workers == s.workers[w := wk] && s'.index == s.index
    requires v < c.threads && v != w && WorkerOk(c, s, v)
    ensures WorkerOk(c, s', v)
  {
    forall y, x | y != w || x != s.queues[w].head ensures SlotAt(s', y, x) == SlotAt(s, y, x) {}
    if s.workers[v].pc.Act? {
      assert MicroOk(c, s, v);
      assert MicroOk(c, s', v);
    }
  }

  lemma WritePlaces(c: Config, s: State, h: History, w: nat, u: int, wk: Worker, s': State)
    requires c.Valid() && |s.queues| == |s.workers| == c.threads && w < c.threads && Workers(c, s, h)
    requires forall i :: 0 <= i < c.threads ==> 0 <= s.queues[i].tail <= s.queues[i].head < |s.queues[i].slots|
    requires s'.queues == s.queues[w := s.queues[w].(slots := s.queues[w].slots[s.queues[w].head := u])]
    requires s'.workers == s.workers[w := wk]
    requires SameHands(c, s, w, wk) && PushedTask(c, wk) == PushedTask(c, s.workers[w])
    requires IsInit(wk.pc) ==> FirstUnpushed(wk.pc) == FirstUnpushed(s.workers[w].pc)
    ensures forall p, x :: At(c, s', p, x) <==> At(c, s, p, x)
  {
    forall p, x ensures At(c, s', p, x) <==> At(c, s, p, x) {
      WritePlace(c, s, h, w, u, wk, s', p, x);
    }
  }

  lemma WritePlace(c: Config, s: State, h: History, w: nat, u: int, wk: Worker, s': State, p: Place, x: int)
    requires c.Valid() && |s.queues| == |s.workers| == c.threads && w < c.threads && Workers(c, s, h)
    requires forall i :: 0 <= i < c.threads ==> 0 <= s.queues[i].tail <= s.queues[i].head < |s.queues[i].slots|
    requires s'.queues == s.queues[w := s.queues[w].(slots := s.queues[w].slots[s.queues[w].head := u])]
    requires s'.workers == s.workers[w := wk]
    requires SameHands(c, s, w, wk) && PushedTask(c, wk) == PushedTask(c, s.workers[w])
    requires IsInit(wk.pc) ==> FirstUnpushed(wk.pc) == FirstUnpushed(s.workers[w].pc)
    ensures At(c, s', p, x) <==> At(c, s, p, x)
  {
    if p.Claimed? && p.w < c.threads && p.w != w {
      assert WorkerOk(c, s, p.w);
    }
  }

  /** Writing the slot at head moves nothing: the slot is outside the window and no thief reads it. */
  lemma WriteStep(c: Config, s: State, h: History, w: nat, u: int, wk: Worker, s': State)
    requires Inv(c, s, h) && w < c.threads && PushesItem(c, s, h, w, u)
    requires s' == s.(queues := s.queues[w := s.queues[w].(slots := s.queues[w].slots[s.queues[w].head := u])],
                      workers := s.workers[w := wk])
    requires SameHands(c, s, w, wk) && PushedTask(c, wk) == PushedTask(c, s.workers[w])
    requires IsInit(wk.pc) ==> wk.pc.InitPush? && FirstUnpushed(wk.pc) == FirstUnpushed(s.workers[w].pc)
    requires WorkerOk(c, s', w)
    ensures Inv(c, s', h)
  {
    WriteKeeps(c, s, h, w, u, wk, s');
    WriteRest(c, s, h, w, u, wk, s');
  }

  lemma WriteKeeps(c: Config, s: State, h: History, w: nat, u: int, wk: Worker, s': State)
    requires Inv(c, s, h) && w < c.threads && PushesItem(c, s, h, w, u)
    requires s' == s.(queues := s.queues[w := s.queues[w].(slots := s.queues[w].slots[s.queues[w].head := u])],
                      workers := s.workers[w := wk])
    requires SameHands(c, s, w, wk) && PushedTask(c, wk) == PushedTask(c, s.workers[w])
    requires IsInit(wk.pc) ==> wk.pc.InitPush? && FirstUnpushed(wk.pc) == FirstUnpushed(s.workers[w].pc)
    requires WorkerOk(c, s', w)
    ensures Places(c, s', h) && Progress(c, s', h) && Workers(c, s', h)
  {
    WriteKeepsPlaces(c, s, h, w, u, wk, s');
    OneMoves(c, s, w, wk, s');
    BusyProgressKept(c, s, h, s', h);
    PushesNow(c, s, h, w, u);
    WriteWorkers(c, s, h, w, u, wk, s');
  }

  lemma WriteKeepsPlaces(c: Config, s: State, h: History, w: nat, u: int, wk: Worker, s': State)
    requires c.Valid() && |s.queues| == |s.workers| == c.threads && w < c.threads && Workers(c, s, h) && Places(c, s, h)
    requires forall i :: 0 <= i < c.threads ==> 0 <= s.queues[i].tail <= s.queues[i].head < |s.queues[i].slots|
    requires s'.queues == s.queues[w := s.queues[w].(slots := s.queues[w].slots[s.queues[w].head := u])]
    requires s'.workers == s.workers[w := wk]
    requires SameHands(c, s, w, wk) && PushedTask(c, wk) == PushedTask(c, s.workers[w])
    requires IsInit(wk.pc) ==> FirstUnpushed(wk.pc) == FirstUnpushed(s.workers[w].pc)
    ensures Places(c, s', h)
  {
    WritePlaces(c, s, h, w, u, wk, s');
    PlacesKept(c, s, h, s');
  }

  lemma WriteRest(c: Config, s: State, h: History, w: nat, u: int, wk: Worker, s': State)
    requires Inv(c, s, h) && w < c.threads && PushesItem(c, s, h, w, u)
    requires s' == s.(queues := s.queues[w := s.queues[w].(slots := s.queues[w].slots[s.queues[w].head := u])],
                      workers := s.workers[w := wk])
    requires (IsInit(wk.pc) <==> IsInit(s.workers[w].pc)) && (IsInit(wk.pc) ==> wk.pc.InitPush?)
    ensures Counters(c, s', h) && Prefixes(c, s', h) && Resetting(c, s', h)
  {
    PushQueueIsFresh(c, s, h, w, u);
    forall q | 0 <= q < |s.queues| ensures Fresh(s', h, q) {
      assert Fresh(s, h, q);
    }
    forall t ensures !Stale(c, s', h, t) {
      assert !Stale(c, s, h, t);
    }
  }

  // ---------------------------------------------------------------------------------------
  // IncHead(fCounter)
  // ---------------------------------------------------------------------------------------

  ghost predicate Publishes(c: Config, s: State, h: History, w: nat, u: int, wk: Worker, s': State)
    requires c.Valid() && w < c.threads && |s.workers| == |s.queues| == c.threads
  {
    && PushesItem(c, s, h, w, u) && SlotAt(s, w, s.queues[w].head) == u
    && s' == s.(queues := s.queues[w := s.queues[w].(head := s.queues[w].head + 1)], workers := s.workers[w := wk],
                traffic := s'.traffic)
    && SameHands(c, s, w, wk) && PushedTask(c, wk) == 0
    && (IsInit(wk.pc) ==> wk.pc.InitPush? && wk.pc.k == s.workers[w].pc.k + 1)
    && WorkerOk(c, s', w)
  }

  /** Where the item is while it is being pushed. */
  ghost function PushPlace(s: State, w: nat): Place
    requires w < |s.workers|
  {
    if s.workers[w].pc.InitPush? then Unpushed(w, s.workers[w].pc.k) else Pushing(w)
  }

  lemma PublishAt(c: Config, s: State, w: nat, u: int, wk: Worker, s': State, p: Place, x: int)
    requires c.Valid() && w < c.threads && |s.workers| == |s.queues| == c.threads
    requires SlotAt(s, w, s.queues[w].head) == u && u != 0 && 0 <= s.queues[w].tail <= s.queues[w].head
    requires s'.queues == s.queues[w := s.queues[w].(head := s.queues[w].head + 1)] && s'.workers == s.workers[w := wk]
    requires SameHands(c, s, w, wk) && PushedTask(c, wk) == 0
    requires if IsInit(s.workers[w].pc) then
               s.workers[w].pc.InitPush? && wk.pc.InitPush? && wk.pc.k == s.workers[w].pc.k + 1
             else true
    requires At(c, s, PushPlace(s, w), u)
    ensures At(c, s', p, x) <==>
      (p == Slot(w, s.queues[w].head) && x == u) || (At(c, s, p, x) && p != PushPlace(s, w))
  {
    match p {
      case Slot(q, pos) => assert SlotAt(s', q, pos) == SlotAt(s, q, pos);
      case Claimed(v) =>
        if v < |s.workers| && v != w {
          forall q, y ensures SlotAt(s', q, y) == SlotAt(s, q, y) {}
        }
      case _ =>
    }
  }

  lemma PublishPlace(c: Config, s: State, h: History, w: nat, u: int, wk: Worker, s': State, p: Place, x: int)
    requires c.Valid() && w < c.threads && |s.workers| == |s.queues| == c.threads && Publishes(c, s, h, w, u, wk, s')
    requires Places(c, s, h) && 0 <= s.queues[w].tail <= s.queues[w].head
    ensures At(c, s', p, x) <==> if x == u then p == Slot(w, s.queues[w].head) else At(c, s, p, x)
  {
    assert At(c, s, h.loc[u], u) && h.loc[u] == PushPlace(s, w);
    PublishAt(c, s, w, u, wk, s', p, x);
    assert At(c, s, p, x) ==> x in h.loc && h.loc[x] == p;
    if x != u && p == PushPlace(s, w) {
      assert !At(c, s, p, x);
    }
  }

  lemma PublishMoves(c: Config, s: State, h: History, w: nat, u: int, wk: Worker, s': State)
    requires c.Valid() && w < c.threads && |s.workers| == |s.queues| == c.threads && Publishes(c, s, h, w, u, wk, s')
    requires Places(c, s, h) && 0 <= s.queues[w].tail <= s.queues[w].head
    ensures forall p, x :: At(c, s', p, x) <==> if x == u then p == Slot(w, s.queues[w].head) else At(c, s, p, x)
  {
    forall p, x ensures At(c, s', p, x) <==> if x == u then p == Slot(w, s.queues[w].head) else At(c, s, p, x) {
      PublishPlace(c, s, h, w, u, wk, s', p, x);
    }
  }

  lemma PublishOtherWorker(c: Config, s: State, w: nat, s': State, v: nat)
    requires c.Valid() && |s.workers| == |s.queues| == |s'.workers| == c.threads && w < c.threads && v < c.threads && v != w
    requires s'.queues == s.queues[w := s.queues[w].(head := s.queues[w].head + 1)]
    requires s'.workers[v] == s.workers[v] && s'.index == s.index && WorkerOk(c, s, v)
    ensures WorkerOk(c, s', v)
  {
    forall y, x ensures SlotAt(s', y, x) == SlotAt(s, y, x) {}
    if s.workers[v].pc.Act? {
      assert MicroOk(c, s, v);
      assert MicroOk(c, s', v);
    }
  }

  lemma PublishWorkers(c: Config, s: State, h: History, w: nat, u: int, wk: Worker, s': State)
    requires Inv(c, s, h) && w < c.threads && Publishes(c, s, h, w, u, wk, s')
    ensures Workers(c, s', h.(loc := h.loc[u := Slot(w, s.queues[w].head)]))
  {
    PushQueueIsFresh(c, s, h, w, u);
    forall v | 0 <= v < c.threads ensures WorkerOk(c, s', v) {
      if v != w {
        assert WorkerOk(c, s, v);
        PublishOtherWorker(c, s, w, s', v);
      }
    }
    forall v | 0 <= v < c.threads && h.initer == v ensures IsInit(s'.workers[v].pc) {}
    forall v | 0 <= v < c.threads && IsInit(s'.workers[v].pc) ensures h.initer == v || Refilled(c, s'.workers[v].pc) {}
  }

  lemma PublishPrefixes(c: Config, s: State, h: History, w: nat, u: int, wk: Worker, s': State)
    requires Inv(c, s, h) && w < c.threads && Publishes(c, s, h, w, u, wk, s')
    ensures s.queues[w].head + 1 < |c.g.succ|
    ensures Prefixes(c, s', h.(loc := h.loc[u := Slot(w, s.queues[w].head)]))
    ensures Resetting(c, s', h.(loc := h.loc[u := Slot(w, s.queues[w].head)]))
  {
    PushQueueIsFresh(c, s, h, w, u);
    var h' := h.(loc := h.loc[u := Slot(w, s.queues[w].head)]);
    forall q | 0 <= q < |s.queues| ensures Fresh(s', h', q) {
      assert Fresh(s, h, q);
    }
    PrefixesPublished(c, s, h, s', w, u);
  }

  lemma PrefixesPublished(c: Config, s: State, h: History, s': State, w: nat, u: int)
    requires |h.pend| == |c.g.succ| && w < |s.queues|
    requires forall q :: 0 <= q < |s.queues| ==> 0 <= s.queues[q].head < |s.queues[q].slots|
    requires forall q :: 0 <= q < |s.queues| ==> Fresh(s, h, q)
    requires Prefixes(c, s, h)
    requires s'.queues == s.queues[w := s.queues[w].(head := s.queues[w].head + 1)]
    requires u == s.queues[w].slots[s.queues[w].head] && u !in s.queues[w].slots[..s.queues[w].head]
    requires c.g.IsTask(u) && h.pend[u] == {}
    ensures Prefixes(c, s', h.(loc := h.loc[u := Slot(w, s.queues[w].head)]))
  {
    var h' := h.(loc := h.loc[u := Slot(w, s.queues[w].head)]);
    var q := s.queues[w];
    forall t | WasPushed(c, h, t) ensures WasPushed(c, h', t) {}
    assert WasPushed(c, h', u);
    forall x | 0 <= x < q.head ensures q.slots[x] != u {
      assert q.slots[x] == q.slots[..q.head][x];
    }
  }

  lemma PublishCounters(c: Config, s: State, h: History, w: nat, u: int, s': State, h': History)
    requires Inv(c, s, h) && w < c.threads && PushesItem(c, s, h, w, u) && s'.counters == s.counters
    requires h'.pend == h.pend
    ensures Counters(c, s', h')
  {
    PushesNow(c, s, h, w, u);
    forall t | c.g.IsTask(t) && |c.g.pred[t]| > 1 ensures s.counters[t] == |h.pend[t]| - Lag(c) {
      assert !Stale(c, s, h, t);
    }
  }

  /** Incrementing head publishes the item, which is from then on in the window of the queue. */
  lemma PublishStep(c: Config, s: State, h: History, w: nat, u: int, wk: Worker, s': State)
    requires Inv(c, s, h) && w < c.threads && Publishes(c, s, h, w, u, wk, s')
    ensures Inv(c, s', h.(loc := h.loc[u := Slot(w, s.queues[w].head)]))
  {
    var pl := Slot(w, s.queues[w].head);
    var h' := h.(loc := h.loc[u := pl]);
    PublishMoves(c, s, h, w, u, wk, s');
    OneMoves(c, s, w, wk, s');
    Moved(c, s, h, s', u, pl);
    PublishWorkers(c, s, h, w, u, wk, s');
    PublishPrefixes(c, s, h, w, u, wk, s');
    PublishCounters(c, s, h, w, u, s', h');
  }
}
