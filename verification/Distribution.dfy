/** How the ready tasks are dispatched over the queues at the beginning of a buffer. */
module Distribution {

  lemma Monotone(a: int, b: int, x: nat)
    requires a <= b
    ensures a * x <= b * x
  {
  }

  lemma DivMod(x: int, d: nat, q: int, r: int)
    requires d > 0 && x == d * q + r && 0 <= r < d
    ensures x / d == q && x % d == r
  {
    var q' := x / d;
    assert x == d * q' + x % d;
    if q < q' {
      Monotone(q + 1, q', d);
    } else if q' < q {
      Monotone(q' + 1, q, d);
    }
  }

  lemma Unfold(i: nat, i': nat, pos: nat, pos': nat, slice: nat)
    requires pos < slice && pos' < slice && i * slice + pos == i' * slice + pos'
    ensures i == i' && pos == pos'
  {
    if i < i' {
      Monotone(i + 1, i', slice);
      assert false;
    } else if i' < i {
      Monotone(i' + 1, i, slice);
      assert false;
    }
  }

  /** `i` slices one after the other. */
  function Times(slice: nat, i: nat): nat {
    if i == 0 then 0 else Times(slice, i - 1) + slice
  }

  lemma {:induction false} TimesIs(slice: nat, i: nat)
    ensures Times(slice, i) == i * slice
  {
    if i > 0 {
      TimesIs(slice, i - 1);
      assert i * slice == (i - 1) * slice + slice;
    }
  }

  lemma {:induction false} TimesMonotone(slice: nat, i: nat, j: nat)
    requires i <= j
    ensures Times(slice, i) <= Times(slice, j)
    decreases j - i
  {
    if i < j {
      TimesMonotone(slice, i, j - 1);
    }
  }

  lemma SliceBounds(n: nat, threads: nat, i: nat)
    requires i < threads
    ensures Times(n / threads, i) <= Times(n / threads, i + 1) <= Times(n / threads, threads) <= n
  {
    TimesMonotone(n / threads, i + 1, threads);
    TimesIs(n / threads, threads);
    SlicesFit(n, threads);
  }

  lemma SlicesFit(n: nat, threads: nat)
    requires threads > 0
    ensures threads * (n / threads) <= n
  {
  }

  /** What thread `i` receives: its slice of the list, and thread 0 also the remainder. */
  function Share(tasks: seq<int>, threads: nat, i: nat): (r: seq<int>)
    requires i < threads
    ensures |r| == Size(|tasks|, threads, i)
  {
    SliceBounds(|tasks|, threads, i);
    var slice := |tasks| / threads;
    tasks[Times(slice, i) .. Times(slice, i + 1)] + if i == 0 then tasks[Times(slice, threads) ..] else []
  }

  function Size(n: nat, threads: nat, i: nat): (r: nat)
    requires i < threads
  {
    SliceBounds(n, threads, i);
    n / threads + if i == 0 then n - Times(n / threads, threads) else 0
  }

  lemma SizeBound(n: nat, threads: nat, i: nat)
    requires i < threads
    ensures Size(n, threads, i) <= n
  {
    SliceBounds(n, threads, i);
    TimesMonotone(n / threads, 1, threads);
    assert Times(n / threads, 1) == n / threads;
  }

  /** The index in the list of the element at position `pos` of thread `i`'s share. */
  function Origin(n: nat, threads: nat, i: nat, pos: nat): (k: int)
    requires i < threads
  {
    var slice := n / threads;
    if pos < slice then Times(slice, i) + pos else Times(slice, threads) + (pos - slice)
  }

  lemma OriginCorrect(tasks: seq<int>, threads: nat, i: nat, pos: nat)
    requires i < threads && pos < Size(|tasks|, threads, i)
    ensures 0 <= Origin(|tasks|, threads, i, pos) < |tasks|
    ensures Share(tasks, threads, i)[pos] == tasks[Origin(|tasks|, threads, i, pos)]
    ensures pos < |tasks| / threads <==> Origin(|tasks|, threads, i, pos) < Times(|tasks| / threads, threads)
  {
    SliceBounds(|tasks|, threads, i);
  }

  /** Thread `i` receives the `i`-th slice of consecutive tasks, and thread 0 also the tasks behind all slices. */
  lemma ShareAt(tasks: seq<int>, threads: nat, i: nat) returns (from: nat, rest: nat)
    requires i < threads
    ensures var slice := |tasks| / threads;
      && from == i * slice && rest == threads * slice && from + slice <= rest <= |tasks|
      && Share(tasks, threads, i) == tasks[from..from + slice] + if i == 0 then tasks[rest..] else []
  {
    var slice := |tasks| / threads;
    SliceBounds(|tasks|, threads, i);
    TimesIs(slice, i);
    TimesIs(slice, threads);
    from, rest := Times(slice, i), Times(slice, threads);
  }

  /** Positions of different slices are different. */
  lemma SameSlice(slice: nat, i: nat, i': nat, pos: nat, pos': nat)
    requires pos < slice && pos' < slice && Times(slice, i) + pos == Times(slice, i') + pos'
    ensures i == i' && pos == pos'
  {
    if i < i' {
      SliceOrder(slice, i, i', pos);
    } else if i' < i {
      SliceOrder(slice, i', i, pos');
    }
  }

  lemma SliceOrder(slice: nat, i: nat, i': nat, pos: nat)
    requires i < i' && pos < slice
    ensures Times(slice, i) + pos < Times(slice, i')
  {
    TimesMonotone(slice, i + 1, i');
  }

  /** No task is handed to two threads, or twice to one. */
  lemma OriginInjective(n: nat, threads: nat, i: nat, pos: nat, i': nat, pos': nat)
    requires i < threads && i' < threads && pos < Size(n, threads, i) && pos' < Size(n, threads, i')
    requires Origin(n, threads, i, pos) == Origin(n, threads, i', pos')
    ensures i == i' && pos == pos'
  {
    SliceBounds(n, threads, i);
    SliceBounds(n, threads, i');
    if pos < n / threads && pos' < n / threads {
      SameSlice(n / threads, i, i', pos, pos');
    }
  }

  lemma {:induction false} Locate(slice: nat, threads: nat, k: nat) returns (i: nat)
    requires k < Times(slice, threads)
    ensures i < threads && Times(slice, i) <= k < Times(slice, i + 1)
  {
    if Times(slice, threads - 1) <= k {
      i := threads - 1;
    } else {
      i := Locate(slice, threads - 1, k);
    }
  }

  /** Every task is handed to some thread. */
  lemma OriginSurjective(n: nat, threads: nat, k: nat) returns (i: nat, pos: nat)
    requires 0 < threads && k < n
    ensures i < threads && pos < Size(n, threads, i) && Origin(n, threads, i, pos) == k
  {
    var slice := n / threads;
    if k < Times(slice, threads) {
      i := Locate(slice, threads, k);
      pos := k - Times(slice, i);
      SliceBounds(n, threads, i);
    } else {
      SliceBounds(n, threads, 0);
      i, pos := 0, slice + (k - Times(slice, threads));
    }
  }

  /** The first `i` shares one after the other. */
  function Shares(tasks: seq<int>, threads: nat, i: nat): seq<int>
    requires i <= threads
  {
    if i == 0 then [] else Shares(tasks, threads, i - 1) + Share(tasks, threads, i - 1)
  }

  /** A share is a slice of the list, and that of thread 0 has the remainder besides. */
  lemma ShareParts(tasks: seq<int>, threads: nat, i: nat, lo: nat, hi: nat, cut: nat)
    requires i < threads && lo == Times(|tasks| / threads, i) && hi == Times(|tasks| / threads, i + 1)
    requires cut == Times(|tasks| / threads, threads)
    ensures lo <= hi <= cut <= |tasks|
    ensures multiset(tasks[..hi]) == multiset(tasks[..lo]) + multiset(tasks[lo..hi])
    ensures multiset(Share(tasks, threads, i))
         == multiset(tasks[lo..hi]) + if i == 0 then multiset(tasks[cut..]) else multiset{}
  {
    SliceBounds(|tasks|, threads, i);
    assert tasks[..hi] == tasks[..lo] + tasks[lo..hi];
  }

  lemma {:induction false} SharesSoFar(tasks: seq<int>, threads: nat, i: nat, hi: nat, cut: nat)
    requires 1 <= i <= threads && hi == Times(|tasks| / threads, i) && cut == Times(|tasks| / threads, threads)
    ensures hi <= cut <= |tasks|
    ensures multiset(Shares(tasks, threads, i)) == multiset(tasks[..hi]) + multiset(tasks[cut..])
  {
    var lo := Times(|tasks| / threads, i - 1);
    ShareParts(tasks, threads, i - 1, lo, hi, cut);
    SharesStep(tasks, threads, i);
    if i > 1 {
      SharesSoFar(tasks, threads, i - 1, lo, cut);
      Regroup(multiset(Shares(tasks, threads, i - 1)), multiset(tasks[..lo]), multiset(tasks[cut..]),
              multiset(tasks[lo..hi]), multiset(tasks[..hi]), multiset(Share(tasks, threads, i - 1)));
    } else {
      assert tasks[..0] == [];
    }
  }

  lemma SharesStep(tasks: seq<int>, threads: nat, i: nat)
    requires 1 <= i <= threads
    ensures multiset(Shares(tasks, threads, i)) == multiset(Shares(tasks, threads, i - 1)) + multiset(Share(tasks, threads, i - 1))
    ensures i == 1 ==> Shares(tasks, threads, i - 1) == []
  {
  }

  lemma Regroup(shares: multiset<int>, before: multiset<int>, rest: multiset<int>,
                slice: multiset<int>, after: multiset<int>, share: multiset<int>)
    requires shares == before + rest && after == before + slice && share == slice
    ensures shares + share == after + rest
  {
  }

  /** Dispatching over all queues queues the same multiset of tasks as pushing the whole list on one
      queue, for every number of threads and every length of the list. */
  lemma DispatchIsComplete(tasks: seq<int>, threads: nat)
    requires 0 < threads
    ensures multiset(Shares(tasks, threads, threads)) == multiset(tasks)
  {
    var cut := Times(|tasks| / threads, threads);
    SharesSoFar(tasks, threads, threads, cut, cut);
    Halves(tasks, cut);
  }

  lemma Halves(tasks: seq<int>, cut: nat)
    requires cut <= |tasks|
    ensures multiset(tasks[..cut]) + multiset(tasks[cut..]) == multiset(tasks)
  {
    assert tasks == tasks[..cut] + tasks[cut..];
  }
}
