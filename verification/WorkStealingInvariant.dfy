/** The inductive invariant of the work-stealing scheduler. */
module WorkStealingInvariant {
  import opened Sequences
  import opened TaskGraph
  import opened WorkStealing

  /** Where a released task can be. */
  datatype Place =
    | Slot(q: nat, pos: int)        // inside the window [tail, head) of a queue
    | Carried(w: nat)               // the worker's tasknum
    | Pushing(w: nat)               // PushHead has been called but has not published it
    | Claimed(w: nat)               // the worker's CAS took it, the slot is not read yet
    | Busy(w: nat)                  // the worker runs it or still has to activate a successor of it
    | Unpushed(w: nat, k: nat)      // the end task still has to push it

  function CarriedTask(wk: Worker): int {
    match wk.pc
    case Run(_, _) => 0
    case Act(t, _, _) => if wk.tasknum == t then 0 else wk.tasknum
    case InitCount(_) => 0
    case InitSlots(_, _) => 0
    case InitCounter(_) => 0
    case InitPush(_, _) => 0
    case _ => wk.tasknum
  }

  predicate IsAct(c: Config, pc: PC) {
    pc.Act? && c.g.IsTask(pc.task) && pc.task != LAST_TASK_INDEX && pc.k < c.g.Length(pc.task)
  }

  function PushedTask(c: Config, wk: Worker): int
    requires c.Valid()
  {
    if IsAct(c, wk.pc) && (wk.pc.m.ToPush? || wk.pc.m.Wrote? || wk.pc.m.HeadRead?)
    then Pushed(c, wk.pc.task, wk.pc.k) else 0
  }

  function SlotAt(s: State, q: nat, pos: int): int {
    if q < |s.queues| && 0 <= pos < |s.queues[q].slots| then s.queues[q].slots[pos] else 0
  }

  predicate Claims(pc: PC) {
    pc.StealWon? || (pc.Act? && pc.m.PopWon?)
  }

  function ClaimedTask(s: State, w: nat): int
    requires w < |s.workers|
  {
    match s.workers[w].pc
    case StealWon(i, pos) => SlotAt(s, i, pos)
    case Act(_, _, PopWon(h)) => SlotAt(s, w, h - 1)
    case _ => 0
  }

  /** Execution has passed the activation at position `pos`. */
  predicate Passed(k: nat, m: Micro, pos: nat) {
    k > pos || (k == pos && !m.Begin?)
  }

  function BusyTask(c: Config, wk: Worker): int
    requires c.Valid()
  {
    if wk.pc.Run? then wk.pc.task
    else if IsAct(c, wk.pc) && !Passed(wk.pc.k, wk.pc.m, c.g.LastPosition(wk.pc.task)) then wk.pc.task
    else 0
  }

  predicate IsInit(pc: PC) {
    pc.InitCount? || pc.InitSlots? || pc.InitCounter? || pc.InitPush?
  }

  function FirstUnpushed(pc: PC): nat
    requires IsInit(pc)
  {
    if pc.InitPush? then pc.k else 0
  }

  /** Task `t` is at place `pl`: a fact about the shared memory and the workers' registers. */
  predicate At(c: Config, s: State, pl: Place, t: int)
    requires c.Valid()
  {
    t != 0 &&
    match pl
    case Slot(q, pos) => q < |s.queues| && s.queues[q].tail <= pos < s.queues[q].head && SlotAt(s, q, pos) == t
    case Carried(w) => w < |s.workers| && CarriedTask(s.workers[w]) == t
    case Pushing(w) => w < |s.workers| && PushedTask(c, s.workers[w]) == t
    case Claimed(w) => w < |s.workers| && ClaimedTask(s, w) == t
    case Busy(w) => w < |s.workers| && BusyTask(c, s.workers[w]) == t
    case Unpushed(w, k) =>
      w < |s.workers| && IsInit(s.workers[w].pc) && FirstUnpushed(s.workers[w].pc) <= k < |c.g.ready| && c.g.ready[k] == t
  }

  /** What the invariant remembers of the current cycle: for every task the inputs that have not
      activated it yet, for every released task that still has something to do its place, the worker
      that runs the end task's reset (or -1), and the number of the cycle. */
  datatype History = History(pend: seq<set<int>>, loc: map<int, Place>, initer: int, cyc: nat)

  /** The task has run and has activated all its successors. */
  ghost predicate Retired(h: History, t: int)
    requires 0 <= t < |h.pend|
  {
    h.pend[t] == {} && t !in h.loc
  }

  ghost predicate Shape(c: Config, s: State, h: History) {
    && c.Valid()
    && !s.fault
    && |s.queues| == |s.workers| == c.threads
    && |s.counters| == |c.g.succ| == |h.pend|
    && (forall q :: 0 <= q < |s.queues| ==>
          |s.queues[q].slots| == |c.g.succ| && 0 <= s.queues[q].tail <= s.queues[q].head < |c.g.succ|)
  }

  /** Every released task is at exactly one place. */
  ghost predicate Places(c: Config, s: State, h: History)
    requires c.Valid()
  {
    && (forall pl, t :: At(c, s, pl, t) ==> t in h.loc && h.loc[t] == pl)
    && (forall t :: t in h.loc ==> At(c, s, h.loc[t], t))
  }

  ghost predicate Released(c: Config, h: History)
    requires c.Valid() && |h.pend| == |c.g.succ|
  {
    && (forall t :: t in h.loc ==> c.g.IsTask(t) && h.pend[t] == {})
    && (forall t, p :: c.g.IsTask(t) && p in h.pend[t] ==> p in c.Needs(t))
    && (forall t :: c.g.IsTask(t) && NOBODY in c.Needs(t) ==> NOBODY in h.pend[t])
  }

  /** Task `p` has activated its `j`-th successor in this cycle. */
  ghost predicate Fired(c: Config, s: State, h: History, p: int, j: nat)
    requires c.Valid() && |h.pend| == |c.g.succ| && c.g.IsTask(p) && j < |c.g.succ[p]|
  {
    if p in h.loc then
      && h.loc[p].Busy? && h.loc[p].w < |s.workers|
      && var pc := s.workers[h.loc[p].w].pc;
      pc.Act? && Passed(pc.k, pc.m, c.g.Position(p, j))
    else h.pend[p] == {}
  }

  ghost predicate Edges(c: Config, s: State, h: History)
    requires c.Valid() && |h.pend| == |c.g.succ|
  {
    forall p, j :: c.g.IsTask(p) && 0 <= j < |c.g.succ[p]| ==>
      (p in h.pend[c.g.succ[p][j]] <==> !Fired(c, s, h, p, j))
  }

  /** The counter of `t` has not been initialised for this cycle yet. */
  ghost predicate Stale(c: Config, s: State, h: History, t: int)
    requires c.Valid()
  {
    && 0 <= h.initer < |s.workers| && s.workers[h.initer].pc.InitCount?
    && var k := s.workers[h.initer].pc.k;
    k <= |c.Multi()| && t in c.Multi()[k..]
  }

  ghost predicate Counters(c: Config, s: State, h: History)
    requires c.Valid() && |s.counters| == |c.g.succ| == |h.pend|
  {
    forall t :: c.g.IsTask(t) && |c.g.pred[t]| > 1 && !Stale(c, s, h, t) ==> s.counters[t] == |h.pend[t]| - Lag(c)
  }

  lemma NeedsOf(c: Config, t: int)
    requires c.Valid() && c.g.IsTask(t)
    ensures |c.g.pred[t]| > 1 ==> |c.Needs(t)| - Lag(c) == |c.g.pred[t]|
    ensures NOBODY !in c.g.pred[t]
    ensures NOBODY in c.Needs(t) <==> !c.Releasable(t)
    ensures forall p :: p in c.Needs(t) && p != NOBODY ==> p in c.g.pred[t]
  {
    assert forall p :: p in c.g.pred[t] ==> c.g.IsTask(p);
    if NOBODY in c.g.pred[t] {
      assert false;
    }
  }

  /** How far a counter is below the number of activations that are missing. */
  function Lag(c: Config): int {
    if c.returnsNew then 0 else 1
  }

  predicate PopsHere(c: Config, wk: Worker)
    requires c.Valid() && IsAct(c, wk.pc)
  {
    var a := c.g.ActionAt(wk.pc.task, wk.pc.k);
    a.ActivateOne? || (a.GetReady? && wk.tasknum == 0)
  }

  ghost predicate MicroOk(c: Config, s: State, w: nat)
    requires c.Valid() && w < |s.workers| && w < |s.queues| && IsAct(c, s.workers[w].pc)
  {
    var wk, q := s.workers[w], s.queues[w];
    match wk.pc.m
    case Begin => true
    case ToPush => PushedTask(c, wk) != 0
    case Wrote => PushedTask(c, wk) != 0 && SlotAt(s, w, q.head) == PushedTask(c, wk)
    case HeadRead(h) => PushedTask(c, wk) != 0 && SlotAt(s, w, q.head) == PushedTask(c, wk) && h == q.head
    case PopStart => PopsHere(c, wk)
    case PopRead(h, t) => PopsHere(c, wk) && 0 <= t < h <= MAX_SHORT
    case PopWon(h) => PopsHere(c, wk) && h == q.head + 1 && h - 1 < |q.slots| && SlotAt(s, w, h - 1) != 0
  }

  ghost predicate WorkerOk(c: Config, s: State, w: nat)
    requires c.Valid() && w < |s.workers| && |s.queues| == |s.workers| == c.threads
  {
    var wk := s.workers[w];
    && (wk.tasknum == 0 || c.g.IsTask(wk.tasknum))
    && (wk.pc.Top? || wk.pc.Exited? || 0 < c.full)
    && match wk.pc
       case Switch(idx) => wk.tasknum != 0 ==> idx == s.index
       case Run(t, idx) => c.g.IsTask(t) && t != LAST_TASK_INDEX && wk.tasknum == t && idx == s.index
       case Act(t, k, m) =>
         && IsAct(c, wk.pc)
         && (if c.g.Clears(t) && k >= 1 then wk.tasknum != t else wk.tasknum == t)
         && MicroOk(c, s, w)
       case StealSnap(_) => wk.tasknum == 0
       case StealRead(i, h, t) => wk.tasknum == 0 && i < c.threads && 0 <= t < h <= MAX_SHORT
       case StealWon(i, pos) =>
         wk.tasknum == 0 && i < c.threads && 0 <= pos < s.queues[i].tail && SlotAt(s, i, pos) != 0
       case InitCount(k) => k <= |c.Multi()|
       case InitCounter(i) => i < c.threads
       case InitPush(k, m) =>
         && k <= |c.g.ready|
         && (m.Begin? || m.Wrote? || m.HeadRead?)
         && (m.Wrote? || m.HeadRead? ==> k < |c.g.ready| && SlotAt(s, w, s.queues[w].head) == c.g.ready[k])
         && (m.HeadRead? ==> m.h == s.queues[w].head)
       case _ => true
  }

  /** The end task has pushed everything; others may already have finished the cycle it started. */
  predicate Refilled(c: Config, pc: PC) {
    pc.InitPush? && pc.k == |c.g.ready|
  }

  ghost predicate Workers(c: Config, s: State, h: History)
    requires c.Valid() && |s.queues| == |s.workers| == c.threads
  {
    && -1 <= h.initer < c.threads
    && (forall w :: 0 <= w < c.threads ==> WorkerOk(c, s, w))
    && (forall w :: 0 <= w < c.threads && h.initer == w ==> IsInit(s.workers[w].pc))
    && (forall w :: 0 <= w < c.threads && IsInit(s.workers[w].pc) ==> h.initer == w || Refilled(c, s.workers[w].pc))
  }

  /** The queue holds tasks of the current cycle only. */
  ghost predicate Fresh(s: State, h: History, q: nat) {
    0 <= h.initer < |s.workers| ==>
      var pc := s.workers[h.initer].pc;
      pc.InitPush? || ((pc.InitSlots? || pc.InitCounter?) && q < pc.i)
  }

  /** While counters and queues are being reset, no task is anywhere else and the queues that still
      have to be reset are empty. */
  ghost predicate Resetting(c: Config, s: State, h: History) {
    && (0 <= h.initer < |s.workers| && !s.workers[h.initer].pc.InitPush? ==>
          h.pend == c.AllNeeds() && forall t :: t in h.loc ==> h.loc[t].Unpushed?)
    && (forall q :: 0 <= q < |s.queues| && !Fresh(s, h, q) ==> s.queues[q].head == s.queues[q].tail)
  }

  ghost predicate WasPushed(c: Config, h: History, t: int)
    requires |h.pend| == |c.g.succ|
  {
    c.g.IsTask(t) && h.pend[t] == {} && (t in h.loc ==> !h.loc[t].Pushing? && !h.loc[t].Unpushed?)
  }

  /** The slots below head hold different tasks, each of which has been pushed in this cycle. */
  ghost predicate Prefixes(c: Config, s: State, h: History)
    requires |h.pend| == |c.g.succ|
    requires forall q :: 0 <= q < |s.queues| ==> 0 <= s.queues[q].head <= |s.queues[q].slots|
  {
    && (forall q, x :: 0 <= q < |s.queues| && Fresh(s, h, q) && 0 <= x < s.queues[q].head ==>
          WasPushed(c, h, s.queues[q].slots[x]))
    && (forall q, x, y :: 0 <= q < |s.queues| && Fresh(s, h, q) && 0 <= x < y < s.queues[q].head ==>
          s.queues[q].slots[x] != s.queues[q].slots[y])
  }

  /** The body of `t` has started, or ended, in this cycle. */
  ghost predicate Begun(h: History, t: int)
    requires 0 <= t < |h.pend|
  {
    if t in h.loc then h.loc[t].Busy? else h.pend[t] == {}
  }

  ghost predicate Ended(s: State, h: History, t: int)
    requires 0 <= t < |h.pend|
  {
    if t in h.loc then h.loc[t].Busy? && h.loc[t].w < |s.workers| && s.workers[h.loc[t].w].pc.Act?
    else h.pend[t] == {}
  }

  /** All cycles of the buffer have been completed. */
  predicate Complete(c: Config, s: State) {
    s.index >= c.full && s.index > 0
  }

  function Offset(c: Config, cyc: nat): int {
    cyc * c.vec
  }

  ghost predicate Logged(c: Config, s: State, h: History)
    requires |h.pend| == |c.g.succ|
  {
    && (forall a :: 0 <= a < |s.log| ==>
          && c.g.IsTask(s.log[a].task) && s.log[a].index <= Offset(c, h.cyc)
          && (s.log[a].index == Offset(c, h.cyc) ==>
                if s.log[a].Start? then Begun(h, s.log[a].task) else Ended(s, h, s.log[a].task)))
    && (forall t :: c.g.IsTask(t) && Begun(h, t) ==> Start(t, Offset(c, h.cyc)) in s.log)
    && (forall t :: c.g.IsTask(t) && Ended(s, h, t) ==> Finish(t, Offset(c, h.cyc)) in s.log)
  }

  /** Every earlier cycle is complete, and only offsets of cycles occur. */
  ghost predicate PastCycles(c: Config, s: State, h: History) {
    && (forall n: nat, t :: n < h.cyc && c.g.IsTask(t) ==> Start(t, Offset(c, n)) in s.log && Finish(t, Offset(c, n)) in s.log)
    && (forall a :: 0 <= a < |s.log| ==> exists n: nat :: n <= h.cyc && s.log[a].index == Offset(c, n))
  }

  /** No event is repeated, and a task starts only after all its inputs have finished. */
  ghost predicate Ordered(g: Graph, log: seq<Event>) {
    && NoDuplicates(log)
    && forall a, p :: 0 <= a < |log| && log[a].Start? && 0 <= log[a].task < |g.pred| && p in g.pred[log[a].task] ==>
         Finish(p, log[a].index) in log[..a]
  }

  ghost predicate Index(c: Config, s: State, h: History)
    requires c.Valid() && |h.pend| == |c.g.succ|
  {
    0 <= s.index &&
    if Complete(c, s) then
      s.index == Offset(c, h.cyc) + c.vec && Offset(c, h.cyc) < c.full && forall t :: c.g.IsTask(t) ==> Retired(h, t)
    else
      && s.index == Offset(c, h.cyc)
      && !Retired(h, LAST_TASK_INDEX)
  }

  ghost predicate Inv(c: Config, s: State, h: History) {
    && Shape(c, s, h)
    && Places(c, s, h)
    && Released(c, h)
    && Edges(c, s, h)
    && Counters(c, s, h)
    && Workers(c, s, h)
    && Resetting(c, s, h)
    && Prefixes(c, s, h)
    && Logged(c, s, h)
    && PastCycles(c, s, h)
    && Ordered(c.g, s.log)
    && Index(c, s, h)
  }
}
