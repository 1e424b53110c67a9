/** The operations on a queue as the uninterrupted steps of one worker. */
module QueueSteps {
  import opened TaskGraph
  import opened WorkStealing

  predicate Proper(q: Queue) {
    0 <= q.tail <= q.head <= |q.slots|
  }

  /** The tasks in the queue, the next one to be stolen first. */
  function Window(q: Queue): seq<int>
    requires Proper(q)
  {
    q.slots[q.tail..q.head]
  }

  function PushedOn(q: Queue, item: int): (q': Queue)
    requires Proper(q) && q.head < |q.slots|
    ensures Proper(q') && Window(q') == Window(q) + [item]
  {
    Queue(q.slots[q.head := item], q.head + 1, q.tail)
  }

  /** The queue without the task pushed last, and that task; 0 if the queue is empty. */
  function HeadPopped(q: Queue): (r: (Queue, int))
    requires Proper(q)
    ensures Proper(r.0)
    ensures if Window(q) == [] then r == (q, WORK_STEALING_INDEX) else Window(q) == Window(r.0) + [r.1]
  {
    if q.head == q.tail then (q, WORK_STEALING_INDEX) else (q.(head := q.head - 1), q.slots[q.head - 1])
  }

  /** The queue without the task pushed first, and that task; 0 if the queue is empty. */
  function TailPopped(q: Queue): (r: (Queue, int))
    requires Proper(q)
    ensures Proper(r.0)
    ensures if Window(q) == [] then r == (q, WORK_STEALING_INDEX) else Window(q) == [r.1] + Window(r.0)
  {
    if q.head == q.tail then (q, WORK_STEALING_INDEX) else (q.(tail := q.tail + 1), q.slots[q.tail])
  }

  ghost predicate Moved(c: Config, w: nat, run: seq<State>, i: nat) {
    i + 1 < |run| && c.Valid() && w < |run[i].workers| && run[i + 1] == Step(c, run[i], w)
  }

  /** The states that worker `w` goes through from `s` to `s'` when it alone moves. */
  ghost predicate Leads(c: Config, s: State, w: nat, run: seq<State>, s': State) {
    && |run| > 0 && run[0] == s && run[|run| - 1] == s'
    && forall i :: 0 <= i < |run| - 1 ==> Moved(c, w, run, i)
  }

  lemma Move(c: Config, s: State, w: nat) returns (run: seq<State>, s': State)
    requires c.Valid() && w < |s.workers|
    ensures s' == Step(c, s, w) && |run| == 2 && Leads(c, s, w, run, s')
  {
    s' := Step(c, s, w);
    run := [s, s'];
    assert Moved(c, w, run, 0);
  }

  lemma Then(c: Config, s: State, w: nat, run1: seq<State>, s1: State, run2: seq<State>, s2: State) returns (run: seq<State>)
    requires Leads(c, s, w, run1, s1) && Leads(c, s1, w, run2, s2)
    ensures |run| == |run1| + |run2| - 1 && Leads(c, s, w, run, s2)
  {
    run := run1 + run2[1..];
    forall i | 0 <= i < |run| - 1 ensures Moved(c, w, run, i) {
      if i < |run1| - 1 {
        SameMove(c, w, run1, i, run, i);
      } else {
        SameMove(c, w, run2, i - (|run1| - 1), run, i);
      }
    }
  }

  lemma SameMove(c: Config, w: nat, run: seq<State>, i: nat, run': seq<State>, i': nat)
    requires Moved(c, w, run, i) && i' + 1 < |run'| && run'[i'] == run[i] && run'[i' + 1] == run[i + 1]
    ensures Moved(c, w, run', i')
  {
  }

  /** A run without its last step. */
  lemma Before(c: Config, s: State, w: nat, run: seq<State>, s': State) returns (run': seq<State>, s1: State)
    requires Leads(c, s, w, run, s') && |run| > 1
    ensures |run'| == |run| - 1 && Leads(c, s, w, run', s1)
    ensures c.Valid() && w < |s1.workers| && s' == Step(c, s1, w)
  {
    var n := |run| - 1;
    run', s1 := run[..n], run[n - 1];
    forall i | 0 <= i < n - 1 ensures Moved(c, w, run', i) {
      SameMove(c, w, run, i, run', i);
    }
    assert Moved(c, w, run, n - 1);
  }

  ghost predicate Ready(c: Config, s: State, w: nat) {
    && c.Valid() && |s.queues| == |s.workers| == c.threads && w < c.threads && |s.counters| == |c.g.succ|
  }

  ghost predicate AtMicro(c: Config, s: State, w: nat, t: int, k: nat, m: Micro)
    requires Ready(c, s, w)
  {
    c.g.IsTask(t) && k < c.g.Length(t) && s.workers[w].pc == Act(t, k, m)
  }

  lemma Thrice(c: Config, s: State, w: nat) returns (run: seq<State>, s1: State, s2: State, s3: State)
    requires c.Valid() && w < |s.workers|
    ensures s1 == Step(c, s, w) && |s1.workers| == |s.workers|
    ensures s2 == Step(c, s1, w) && |s2.workers| == |s.workers|
    ensures s3 == Step(c, s2, w) && |s3.workers| == |s.workers|
    ensures |run| == 4 && Leads(c, s, w, run, s3)
  {
    var run1, run2, run3;
    run1, s1 := Move(c, s, w);
    run2, s2 := Move(c, s1, w);
    run3, s3 := Move(c, s2, w);
    run := Then(c, s, w, run1, s1, run2, s2);
    run := Then(c, s, w, run, s2, run3, s3);
  }

  lemma PushWrite(c: Config, s: State, w: nat, t: int, k: nat)
    requires Ready(c, s, w) && AtMicro(c, s, w, t, k, ToPush) && 0 <= s.queues[w].head < |s.queues[w].slots|
    ensures var s', q := Step(c, s, w), s.queues[w];
      && s'.queues == s.queues[w := q.(slots := q.slots[q.head := Pushed(c, t, k)])] && s'.counters == s.counters
      && s'.workers == s.workers[w := Worker(s.workers[w].tasknum, Act(t, k, Wrote))]
  {
  }

  lemma PushRead(c: Config, s: State, w: nat, t: int, k: nat)
    requires Ready(c, s, w) && AtMicro(c, s, w, t, k, Wrote)
    ensures var s', q := Step(c, s, w), s.queues[w];
      && s'.queues == s.queues && s'.counters == s.counters
      && s'.workers == s.workers[w := Worker(s.workers[w].tasknum, Act(t, k, HeadRead(q.head)))]
  {
  }

  lemma PushPublish(c: Config, s: State, w: nat, t: int, k: nat, h: int)
    requires Ready(c, s, w) && AtMicro(c, s, w, t, k, HeadRead(h)) && 0 <= h < |s.queues[w].slots|
    ensures var s' := Step(c, s, w);
      && s'.queues == s.queues[w := s.queues[w].(head := h + 1)] && s'.counters == s.counters
      && s'.workers == s.workers[w := Worker(s.workers[w].tasknum, NextAction(c, t, k))]
  {
  }

  /** PushHead without interruption: slot write, head read, head write. */
  lemma PushHeadAlone(c: Config, s: State, w: nat, t: int, k: nat) returns (run: seq<State>, s': State)
    requires Ready(c, s, w) && AtMicro(c, s, w, t, k, ToPush)
    requires Proper(s.queues[w]) && s.queues[w].head < |s.queues[w].slots|
    ensures |run| == 4 && Leads(c, s, w, run, s')
    ensures s'.queues == s.queues[w := PushedOn(s.queues[w], Pushed(c, t, k))] && s'.counters == s.counters
    ensures s'.workers == s.workers[w := Worker(s.workers[w].tasknum, NextAction(c, t, k))]
  {
    var s1, s2;
    run, s1, s2, s' := Thrice(c, s, w);
    PushWrite(c, s, w, t, k);
    PushRead(c, s1, w, t, k);
    PushPublish(c, s2, w, t, k, s.queues[w].head);
  }

  lemma PopCas(c: Config, s: State, w: nat, t: int, k: nat)
    requires Ready(c, s, w) && AtMicro(c, s, w, t, k, PopRead(s.queues[w].head, s.queues[w].tail))
    ensures var s', q := Step(c, s, w), s.queues[w];
      && s'.queues == s.queues[w := q.(head := q.head - 1)] && s'.counters == s.counters
      && s'.workers == s.workers[w := Worker(s.workers[w].tasknum, Act(t, k, PopWon(q.head)))]
  {
  }

  lemma PopTake(c: Config, s: State, w: nat, t: int, k: nat, h: int)
    requires Ready(c, s, w) && AtMicro(c, s, w, t, k, PopWon(h)) && 0 <= h - 1 < |s.queues[w].slots|
    ensures var s' := Step(c, s, w);
      && s'.queues == s.queues && s'.counters == s.counters
      && s'.workers == s.workers[w := Worker(s.queues[w].slots[h - 1], NextAction(c, t, k))]
  {
  }

  lemma PopSnapshot(c: Config, s: State, w: nat, t: int, k: nat)
    requires Ready(c, s, w) && AtMicro(c, s, w, t, k, PopStart)
    ensures var s', q := Step(c, s, w), s.queues[w];
      && s'.queues == s.queues && s'.counters == s.counters
      && s'.workers == s.workers[w := if q.head == q.tail then Worker(WORK_STEALING_INDEX, NextAction(c, t, k))
                                      else Worker(s.workers[w].tasknum, Act(t, k, PopRead(q.head, q.tail)))]
  {
  }

  /** PopHead without interruption: one look at an empty queue, or snapshot, CAS and slot read. */
  lemma PopHeadAlone(c: Config, s: State, w: nat, t: int, k: nat) returns (run: seq<State>, s': State)
    requires Ready(c, s, w) && AtMicro(c, s, w, t, k, PopStart) && Proper(s.queues[w])
    ensures |run| == (if Window(s.queues[w]) == [] then 2 else 4) && Leads(c, s, w, run, s')
    ensures var r := HeadPopped(s.queues[w]);
      && s'.queues == s.queues[w := r.0] && s'.counters == s.counters
      && s'.workers == s.workers[w := Worker(r.1, NextAction(c, t, k))]
  {
    PopSnapshot(c, s, w, t, k);
    var q := s.queues[w];
    if q.head == q.tail {
      assert s.queues[w := q] == s.queues;
      run, s' := Move(c, s, w);
    } else {
      var s1, s2;
      run, s1, s2, s' := Thrice(c, s, w);
      PopCas(c, s1, w, t, k);
      PopTake(c, s2, w, t, k, q.head);
    }
  }

  lemma StealLook(c: Config, s: State, w: nat, i: nat)
    requires Ready(c, s, w) && i < c.threads && s.workers[w].pc == StealSnap(i)
    ensures var s', q := Step(c, s, w), s.queues[i];
      && s'.queues == s.queues && s'.counters == s.counters
      && s'.workers == s.workers[w := Worker(s.workers[w].tasknum,
                                             if q.head == q.tail then StealSnap(i + 1) else StealRead(i, q.head, q.tail))]
  {
  }

  lemma StealCas(c: Config, s: State, w: nat, i: nat)
    requires Ready(c, s, w) && i < c.threads && s.workers[w].pc == StealRead(i, s.queues[i].head, s.queues[i].tail)
    ensures var s', q := Step(c, s, w), s.queues[i];
      && s'.queues == s.queues[i := q.(tail := q.tail + 1)] && s'.counters == s.counters
      && s'.workers == s.workers[w := Worker(s.workers[w].tasknum, StealWon(i, q.tail))]
  {
  }

  lemma StealTake(c: Config, s: State, w: nat, i: nat, pos: int)
    requires Ready(c, s, w) && i < c.threads && s.workers[w].pc == StealWon(i, pos) && 0 <= pos < |s.queues[i].slots|
    ensures var s' := Step(c, s, w);
      && s'.queues == s.queues && s'.counters == s.counters
      && s'.workers == s.workers[w := Worker(s.queues[i].slots[pos], Top)]
  {
  }

  /** PopTail without interruption: an empty queue is passed over. */
  lemma PopTailAlone(c: Config, s: State, w: nat, i: nat) returns (run: seq<State>, s': State)
    requires Ready(c, s, w) && i < c.threads && s.workers[w] == Worker(WORK_STEALING_INDEX, StealSnap(i)) && Proper(s.queues[i])
    ensures |run| == (if Window(s.queues[i]) == [] then 2 else 4) && Leads(c, s, w, run, s')
    ensures var r := TailPopped(s.queues[i]);
      && s'.queues == s.queues[i := r.0] && s'.counters == s.counters
      && s'.workers == s.workers[w := Worker(r.1, if Window(s.queues[i]) == [] then StealSnap(i + 1) else Top)]
  {
    StealLook(c, s, w, i);
    var q := s.queues[i];
    if q.head == q.tail {
      assert s.queues[i := q] == s.queues;
      run, s' := Move(c, s, w);
    } else {
      var s1, s2;
      run, s1, s2, s' := Thrice(c, s, w);
      StealCas(c, s1, w, i);
      StealTake(c, s2, w, i, q.tail);
    }
  }
}
