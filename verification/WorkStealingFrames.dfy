/** Who may change what in the queues. */
module WorkStealingFrames {
  import opened TaskGraph
  import opened WorkStealing
  import opened WorkStealingInvariant
  import opened WorkStealingMoves
  import opened WorkStealingReset

  /** What a step of worker `v` may do to queue `q`: the owner writes the slot at head and moves head by one, a thief
      moves tail up by one, and otherwise only the reset of the queue touches it. */
  ghost predicate Touches(q: Queue, q': Queue, owner: bool) {
    && |q'.slots| == |q.slots|
    && (forall x :: 0 <= x < |q.slots| && q'.slots[x] != q.slots[x] ==> owner && x == q.head)
    && (q'.head == q.head || (owner && (q'.head == q.head + 1 || q'.head == q.head - 1)))
    && (q'.tail == q.tail || q'.tail == q.tail + 1)
  }

  ghost predicate Clears(pc: PC, q: nat) {
    (pc.InitSlots? || pc.InitCounter?) && pc.i == q
  }

  ghost predicate Framed(s: State, s': State, v: nat)
    requires v < |s.workers|
  {
    && |s'.queues| == |s.queues|
    && forall q :: 0 <= q < |s.queues| ==> Clears(s.workers[v].pc, q) || Touches(s.queues[q], s'.queues[q], q == v)
  }

  lemma SameQueues(s: State, s': State, v: nat)
    requires v < |s.workers| && s'.queues == s.queues
    ensures Framed(s, s', v)
  {
  }

  lemma ActionFrame(c: Config, s: State, v: nat, t: int, k: nat)
    requires c.Valid() && v < |s.workers| && c.g.IsTask(t) && k < c.g.Length(t) && |s.counters| == |c.g.succ|
    ensures StepAction(c, s, v, t, k).queues == s.queues
  {
  }

  lemma PushFrame(c: Config, s: State, v: nat)
    requires c.Valid() && |s.workers| == |s.queues| == c.threads && v < c.threads && WorkerOk(c, s, v)
    requires s.workers[v].pc.Act?
    requires var m := s.workers[v].pc.m; m.ToPush? || m.Wrote? || m.HeadRead?
    ensures Framed(s, StepPush(c, s, v, s.workers[v].pc.task, s.workers[v].pc.k, s.workers[v].pc.m), v)
  {
  }

  lemma PopFrame(c: Config, s: State, v: nat)
    requires c.Valid() && |s.workers| == |s.queues| == c.threads && v < c.threads && WorkerOk(c, s, v)
    requires 0 <= s.queues[v].tail <= s.queues[v].head <= MAX_SHORT && s.workers[v].pc.Act?
    requires var m := s.workers[v].pc.m; m.PopStart? || m.PopRead? || m.PopWon?
    ensures Framed(s, StepPop(c, s, v, s.workers[v].pc.task, s.workers[v].pc.k, s.workers[v].pc.m), v)
  {
    var m, q := s.workers[v].pc.m, s.queues[v];
    if m.PopRead? {
      PackInjective(m.h, m.t, q.head, q.tail);
    }
  }

  lemma StealFrame(c: Config, s: State, v: nat)
    requires c.Valid() && |s.workers| == |s.queues| == c.threads && v < c.threads && WorkerOk(c, s, v)
    requires forall q :: 0 <= q < c.threads ==> 0 <= s.queues[q].tail <= s.queues[q].head <= MAX_SHORT
    requires var pc := s.workers[v].pc; pc.StealSnap? || pc.StealRead? || pc.StealWon?
    ensures Framed(s, StepSteal(c, s, v), v)
  {
    var pc := s.workers[v].pc;
    if pc.StealRead? {
      PackInjective(pc.h, pc.t, s.queues[pc.i].head, s.queues[pc.i].tail);
    }
  }

  lemma InitFrame(c: Config, s: State, v: nat)
    requires c.Valid() && |s.workers| == |s.queues| == c.threads && v < c.threads && WorkerOk(c, s, v)
    requires |s.counters| == |c.g.succ| && IsInit(s.workers[v].pc)
    ensures Framed(s, StepInit(c, s, v), v)
  {
  }

  lemma StepFrame(c: Config, s: State, h: History, v: nat)
    requires Inv(c, s, h) && v < c.threads
    ensures Framed(s, Step(c, s, v), v)
  {
    assert WorkerOk(c, s, v);
    var pc := s.workers[v].pc;
    if IsInit(pc) {
      InitFrame(c, s, v);
    } else if pc.StealSnap? || pc.StealRead? || pc.StealWon? {
      StealFrame(c, s, v);
    } else if pc.Act? && (pc.m.ToPush? || pc.m.Wrote? || pc.m.HeadRead?) {
      PushFrame(c, s, v);
    } else if pc.Act? && !pc.m.Begin? {
      PopFrame(c, s, v);
    } else {
      if pc.Act? {
        ActionFrame(c, s, v, pc.task, pc.k);
      }
      SameQueues(s, Step(c, s, v), v);
    }
  }

  /** The reset finds the queue empty and nobody reading from it. */
  lemma ClearsIdle(c: Config, s: State, h: History, v: nat, q: nat)
    requires Inv(c, s, h) && v < c.threads && q < c.threads && Clears(s.workers[v].pc, q)
    ensures s.queues[q].head == s.queues[q].tail
    ensures forall w :: 0 <= w < c.threads ==> !Claims(s.workers[w].pc)
  {
    ResetFacts(c, s, h, v);
    assert !Fresh(s, h, q);
    forall w | 0 <= w < c.threads ensures !Claims(s.workers[w].pc) {
      assert WorkerOk(c, s, w);
    }
  }

  /** No step of another worker changes the slot that a successful CAS has claimed. */
  lemma ClaimKept(c: Config, s: State, h: History, s': State, v: nat, w: nat)
    requires Inv(c, s, h) && v < c.threads && w < c.threads && v != w && Framed(s, s', v)
    requires |s'.workers| == c.threads && s'.workers[w] == s.workers[w] && Claims(s.workers[w].pc)
    ensures ClaimedTask(s', w) == ClaimedTask(s, w)
  {
    assert WorkerOk(c, s, w);
    forall q | 0 <= q < c.threads ensures Touches(s.queues[q], s'.queues[q], q == v) {
      if Clears(s.workers[v].pc, q) {
        ClearsIdle(c, s, h, v, q);
      }
    }
    ClaimUntouched(c, s, s', v, w);
  }

  lemma ClaimUntouched(c: Config, s: State, s': State, v: nat, w: nat)
    requires c.Valid() && |s.workers| == |s.queues| == |s'.workers| == |s'.queues| == c.threads
    requires v < c.threads && w < c.threads && v != w && WorkerOk(c, s, w) && Claims(s.workers[w].pc)
    requires s'.workers[w] == s.workers[w]
    requires forall q :: 0 <= q < c.threads ==>
      s.queues[q].tail <= s.queues[q].head && Touches(s.queues[q], s'.queues[q], q == v)
    ensures ClaimedTask(s', w) == ClaimedTask(s, w)
  {
    var q := if s.workers[w].pc.StealWon? then s.workers[w].pc.i else w;
    assert Touches(s.queues[q], s'.queues[q], q == v);
  }
}
