/** The factory for dsp instances: chunks of preallocated instances and a linked list of the free ones. */
module InstancePool {
  import opened Sequences
  import opened Distribution

  class Dsp {
    var prev: Dsp?
    var next: Dsp?

    constructor ()
      ensures prev == null && next == null
    {
      prev, next := null, null;
    }
  }

  /** A block of memory for NVOICES instances.  The first one is static, the others come from calloc. */
  class Chunk {
    const isStatic: bool
    const instances: seq<Dsp>
    var next: Chunk?

    constructor (isStatic: bool, instances: seq<Dsp>)
      ensures this.isStatic == isStatic && this.instances == instances && next == null
    {
      this.isStatic := isStatic;
      this.instances := instances;
      next := null;
    }
  }

  /** `nodes` are linked from first to last through their next fields; prev fields do not matter. */
  ghost predicate Linked(nodes: seq<Dsp>)
    reads nodes
  {
    && NoDuplicates(nodes)
    && (forall i :: 0 <= i < |nodes| - 1 ==> nodes[i].next == nodes[i + 1])
    && (nodes != [] ==> nodes[|nodes| - 1].next == null)
  }

  /** The chunks are linked from the static one through the heap ones. */
  ghost predicate ChunksLinked(chunks: seq<Chunk>)
    reads chunks
  {
    && NoDuplicates(chunks)
    && (forall i :: 0 <= i < |chunks| - 1 ==> chunks[i].next == chunks[i + 1])
    && (chunks != [] ==> chunks[|chunks| - 1].next == null)
    && (forall i :: 0 <= i < |chunks| ==> (chunks[i].isStatic <==> i == 0))
  }

  ghost function Elements(nodes: seq<Dsp>): set<Dsp> {
    set d | d in nodes
  }

  lemma {:induction false} ElementsCount(nodes: seq<Dsp>)
    requires NoDuplicates(nodes)
    ensures |Elements(nodes)| == |nodes|
  {
    if nodes != [] {
      var d, rest := nodes[|nodes| - 1], nodes[..|nodes| - 1];
      assert nodes == rest + [d];
      assert Elements(nodes) == Elements(rest) + {d};
      ElementsCount(rest);
    }
  }

  /** The instances that the chunks provide. */
  ghost function Instances(chunks: seq<Chunk>): set<Dsp> {
    set c, d | c in chunks && d in c.instances :: d
  }

  class Pool {
    const size: nat                 // NVOICES
    var mem: Chunk?
    var first: Dsp?
    var last: Dsp?

    ghost var chunks: seq<Chunk>    // the chunks reachable from mem
    ghost var chain: seq<Dsp>       // the free list, first to last
    ghost var out: set<Dsp>         // the instances handed out
    ghost var owned: set<Dsp>       // the instances of all chunks
    ghost var peak: nat             // the largest number of instances handed out at a time

    ghost predicate FreeList()
      reads this, chain
    {
      && Linked(chain)
      && first == (if chain == [] then null else chain[0])
      && last == (if chain == [] then null else chain[|chain| - 1])
    }

    /** Instances handed out have no links and are not in the free list. */
    ghost predicate Outstanding()
      reads this, out
    {
      && (forall d :: d in out ==> d.prev == null && d.next == null)
      && (forall i :: 0 <= i < |chain| ==> chain[i] !in out)
    }

    /** The free list holds exactly the instances of the chunks that are not handed out. */
    ghost predicate Owned()
      reads this
    {
      out <= owned && (forall i :: 0 <= i < |chain| ==> chain[i] in owned) && owned == Instances(chunks)
    }

    /** There are no more chunks than the peak demand needed. */
    ghost predicate Counts()
      reads this
    {
      && |chain| + |out| == size * |chunks| == |owned|
      && |out| <= peak <= size * |chunks|
      && (chunks != [] ==> size * (|chunks| - 1) < peak)
    }

    ghost predicate Valid()
      reads this, chain, out, chunks
    {
      && size > 0
      && FreeList() && Outstanding() && Owned() && Counts()
      && ChunksLinked(chunks)
      && mem == (if chunks == [] then null else chunks[0])
    }

    constructor (size: nat)
      requires size > 0
      ensures Valid() && this.size == size && chunks == [] && chain == [] && out == {} && peak == 0
    {
      this.size := size;
      mem, first, last := null, null, null;
      chunks, chain, out, owned, peak := [], [], {}, {}, 0;
    }

    /** Link the instances of a new chunk into a list. */
    method LinkChunk() returns (block: seq<Dsp>)
      requires size > 0
      ensures |block| == size && fresh(block) && Linked(block)
    {
      block := [];
      for i := 0 to size
        invariant |block| == i && fresh(block) && NoDuplicates(block)
      {
        var d := new Dsp();
        block := block + [d];
      }
      var prev: Dsp? := null;
      for i := 0 to size
        invariant i > 0 ==> prev == block[i - 1]
        invariant forall j :: 0 <= j < i && j + 1 < size ==> block[j].next == block[j + 1]
      {
        var d := block[i];
        d.prev := prev;
        prev := d;
        if i + 1 < size {
          d.next := block[i + 1];
        }
      }
      prev.next := null;
    }

    /** The free list is empty: get a new chunk, the static one first. */
    method Grow()
      requires size > 0 && first == null && last == null && chain == [] && ChunksLinked(chunks)
      requires mem == (if chunks == [] then null else chunks[0])
      modifies this`mem, this`first, this`last, this`chunks, this`chain, chunks
      ensures FreeList() && |chain| == size && fresh(chain) && ChunksLinked(chunks)
      ensures chunks != [] && mem == chunks[0]
      ensures if old(chunks) == [] then |chunks| == 1 && fresh(chunks) && chunks[0].instances == chain
              else |chunks| == |old(chunks)| + 1 && chunks[0] == old(chunks)[0] && fresh(chunks[1])
                   && chunks[1].instances == chain && chunks[2..] == old(chunks)[1..]
    {
      var block := LinkChunk();
      if mem == null {
        mem := new Chunk(true, block);
        chunks := [mem];
      } else {
        var c := new Chunk(false, block);
        ghost var rest := chunks[1..];
        assert forall i :: 0 <= i < |rest| ==> rest[i] == chunks[i + 1];
        c.next := mem.next;
        mem.next := c;
        chunks := [mem, c] + rest;
      }
      first, last := block[0], block[|block| - 1];
      chain := block;
    }

    /** Unlink the first instance of the free list. */
    method Unlink() returns (d: Dsp)
      requires FreeList() && chain != []
      modifies this`first, this`last, this`chain, chain
      ensures FreeList() && d == old(chain)[0] && chain == old(chain)[1..] && d.prev == null && d.next == null
    {
      assert first != null && last != null;
      d := first;
      if first == last {
        first, last := null, null;
      } else {
        first := first.next;
      }
      d.prev, d.next := null, null;
      chain := chain[1..];
    }

    /** The free list has an instance to give away. */
    ghost predicate Ready()
      reads this, chain, out, chunks
    {
      && size > 0 && chain != []
      && FreeList() && Outstanding() && Owned() && ChunksLinked(chunks)
      && chunks != [] && mem == chunks[0]
      && |chain| + |out| == size * |chunks| == |owned|
      && |out| <= peak <= size * |chunks|
      && (size * (|chunks| - 1) < peak || size * (|chunks| - 1) == |out|)
    }

    method Refill()
      requires Valid()
      modifies this, chunks
      ensures Ready() && out == old(out) && peak == old(peak)
      ensures old(chain) != [] ==> chain == old(chain) && chunks == old(chunks)
      ensures old(chain) == [] ==> |chunks| == |old(chunks)| + 1 && |chain| == size && fresh(chain)
    {
      if first == null {
        Grow();
        assert forall i :: 0 <= i < |chain| ==> chain[i] !in owned && chain[i] !in out;
        Enrol(old(chunks));
      }
    }

    /** A chunk is inserted behind the first one, or becomes the first one. */
    static lemma GrowInstances(before: seq<Chunk>, after: seq<Chunk>)
      requires if before == [] then |after| == 1
               else |after| == |before| + 1 && after[0] == before[0] && after[2..] == before[1..]
      ensures var c := after[if before == [] then 0 else 1];
        Instances(after) == Instances(before) + Elements(c.instances)
    {
      var c := after[if before == [] then 0 else 1];
      forall x ensures x in after <==> x in before || x == c {
        if before != [] {
          assert before == [before[0]] + before[1..] && after == [before[0], c] + after[2..];
        }
      }
    }

    /** Keep the books: the instances of the new chunk are there. */
    ghost method Enrol(before: seq<Chunk>)
      requires size > 0 && |chain| == size && FreeList() && Outstanding() && ChunksLinked(chunks)
      requires if before == [] then |chunks| == 1
               else |chunks| == |before| + 1 && chunks[0] == before[0] && chunks[2..] == before[1..]
      requires mem == chunks[0] && chain == chunks[if before == [] then 0 else 1].instances
      requires owned == Instances(before) && out <= owned && |out| == |owned| == size * |before| <= peak <= size * |before|
      requires forall i :: 0 <= i < |chain| ==> chain[i] !in owned
      modifies this`owned
      ensures Ready()
    {
      GrowCounts(size, |chunks|);
      owned := GrowOwned(before, chunks, owned, chain);
    }

    static lemma GrowOwned(before: seq<Chunk>, after: seq<Chunk>, owned: set<Dsp>, chain: seq<Dsp>)
        returns (all: set<Dsp>)
      requires if before == [] then |after| == 1
               else |after| == |before| + 1 && after[0] == before[0] && after[2..] == before[1..]
      requires owned == Instances(before) && chain == after[if before == [] then 0 else 1].instances
      requires NoDuplicates(chain) && forall i :: 0 <= i < |chain| ==> chain[i] !in owned
      ensures all == Instances(after) && owned <= all && |all| == |owned| + |chain|
      ensures forall i :: 0 <= i < |chain| ==> chain[i] in all
    {
      GrowInstances(before, after);
      ElementsCount(chain);
      all := owned + Elements(chain);
      assert owned * Elements(chain) == {};
    }

    /** newdsp: the instance that has been free for the longest time. */
    method NewDsp() returns (d: Dsp)
      requires Valid()
      modifies this, chain, chunks
      ensures Valid()
      ensures old(chain) != [] ==> d == old(chain)[0] && chain == old(chain)[1..] && chunks == old(chunks)
      ensures old(chain) == [] ==> |chunks| == |old(chunks)| + 1 && |chain| == size - 1 && fresh(d) && fresh(chain)
      ensures d !in old(out) && out == old(out) + {d}
      ensures d.prev == null && d.next == null
      ensures peak == if |out| > old(peak) then |out| else old(peak)
    {
      Refill();
      d := Give();
    }

    method Give() returns (d: Dsp)
      requires Ready()
      modifies this`first, this`last, this`chain, this`out, this`peak, chain
      ensures Valid() && d == old(chain)[0] && chain == old(chain)[1..] && d !in old(out) && out == old(out) + {d}
      ensures d.prev == null && d.next == null && peak == if |out| > old(peak) then |out| else old(peak)
    {
      d := Unlink();
      HandOut(d);
    }

    /** Keep the books: the instance is out now. */
    ghost method HandOut(d: Dsp)
      requires size > 0 && FreeList() && Outstanding() && ChunksLinked(chunks) && chunks != [] && mem == chunks[0]
      requires Owned() && d in owned
      requires |chain| + 1 + |out| == size * |chunks| == |owned| && |out| <= peak <= size * |chunks|
      requires size * (|chunks| - 1) < peak || size * (|chunks| - 1) == |out|
      requires d !in out && d !in chain && d.prev == null && d.next == null
      modifies this`out, this`peak
      ensures Valid() && out == old(out) + {d} && peak == if |out| > old(peak) then |out| else old(peak)
    {
      out := out + {d};
      assert Outstanding();
      RaisePeak();
    }

    ghost method RaisePeak()
      requires size > 0 && FreeList() && Outstanding() && Owned() && ChunksLinked(chunks) && chunks != [] && mem == chunks[0]
      requires |chain| + |out| == size * |chunks| == |owned| && |out| - 1 <= peak <= size * |chunks|
      requires size * (|chunks| - 1) < peak || size * (|chunks| - 1) < |out|
      modifies this`peak
      ensures Valid() && peak == if |out| > old(peak) then |out| else old(peak)
    {
      peak := if |out| > peak then |out| else peak;
    }

    static lemma GrowCounts(size: nat, n: nat)
      requires n > 0
      ensures size * n == size * (n - 1) + size
    {
    }

    /** deldsp: the instance goes to the end of the free list. */
    method DelDsp(d: Dsp)
      requires Valid() && d in out
      modifies this, chain, d
      ensures Valid()
      ensures chain == old(chain) + [d] && out == old(out) - {d} && peak == old(peak) && chunks == old(chunks)
    {
      assert d.prev == null && d.next == null;
      Append(d);
      TakeBack(d);
    }

    /** Keep the books: the instance is back. */
    ghost method TakeBack(d: Dsp)
      requires size > 0 && FreeList() && Owned() && ChunksLinked(chunks) && chunks != [] && mem == chunks[0]
      requires (forall x :: x in out && x != d ==> x.prev == null && x.next == null) && d in out
      requires forall i :: 0 <= i < |chain| ==> chain[i] in out ==> chain[i] == d
      requires |chain| - 1 + |out| == size * |chunks| == |owned| && |out| <= peak <= size * |chunks|
      requires size * (|chunks| - 1) < peak
      modifies this`out
      ensures Valid() && out == old(out) - {d}
    {
      out := out - {d};
    }

    /** Link an instance behind the last one of the free list. */
    method Append(d: Dsp)
      requires FreeList() && d !in chain && d.next == null
      modifies this`first, this`last, this`chain, chain, d
      ensures FreeList() && chain == old(chain) + [d]
    {
      if last != null {
        last.next := d;
        d.prev := last;
        last := d;
      } else {
        first, last := d, d;
      }
      chain := chain + [d];
    }

    /** mydsp_fini: every heap chunk is freed once, the static chunk never. */
    method Fini() returns (freed: seq<Chunk>)
      requires Valid()
      modifies this
      ensures mem == null
      ensures freed == if old(chunks) == [] then [] else old(chunks)[1..]
      ensures NoDuplicates(freed) && forall c :: c in freed ==> !c.isStatic
    {
      freed := [];
      if mem == null {
        return;
      }
      ghost var k := 1;
      mem := mem.next;
      while mem != null
        invariant 1 <= k <= |chunks| && chunks == old(chunks) && freed == chunks[1..k]
        invariant mem == if k < |chunks| then chunks[k] else null
        decreases |chunks| - k
      {
        var next := mem.next;
        freed := freed + [mem];
        mem := next;
        k := k + 1;
      }
    }
  }

  /** The free list holds exactly the instances of the chunks that are not handed out, each once. */
  lemma FreeListIsTheRest(pool: Pool)
    requires pool.Valid()
    ensures NoDuplicates(pool.chain) && pool.out <= Instances(pool.chunks)
    ensures Elements(pool.chain) == Instances(pool.chunks) - pool.out
  {
    ElementsCount(pool.chain);
    Exhausts(Elements(pool.chain), pool.out, pool.owned);
  }

  lemma Exhausts(a: set<Dsp>, b: set<Dsp>, all: set<Dsp>)
    requires a <= all && b <= all && a * b == {} && |a| + |b| == |all|
    ensures a == all - b
  {
    assert |all - b| == |all| - |b|;
    var rest := all - b - a;
    assert all - b == a + rest && a * rest == {};
    assert |all - b| == |a| + |rest|;
    assert rest == {};
  }

  /** The number of chunks is the peak demand rounded up to whole chunks. */
  lemma ChunksForPeak(pool: Pool)
    requires pool.Valid()
    ensures |pool.chunks| == (pool.peak + pool.size - 1) / pool.size
  {
    var n, size, peak := |pool.chunks|, pool.size, pool.peak;
    assert size * n == size * (n - 1) + size;
    if n == 0 {
      assert peak == 0;
    } else {
      assert size * n <= peak + size - 1 < size * n + size;
      Quotient(peak + size - 1, size, n);
    }
  }

  lemma Quotient(x: int, size: nat, n: nat)
    requires size > 0 && size * n <= x < size * n + size
    ensures x / size == n
  {
    var q := x / size;
    assert x == size * q + x % size;
    if q < n {
      Monotone(q + 1, n, size);
    } else if n < q {
      Monotone(n + 1, q, size);
    }
  }
}
