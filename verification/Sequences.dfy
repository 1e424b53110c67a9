/** Sequences without repetition. */
module Sequences {

  predicate NoDuplicates<T(==)>(s: seq<T>) {
    forall i, j :: 0 <= i < j < |s| ==> s[i] != s[j]
  }

  /** `s` without the first occurrence of `x`. */
  function Remove<T(==)>(s: seq<T>, x: T): (r: seq<T>)
  {
    if s == [] then []
    else if s[0] == x then s[1..]
    else [s[0]] + Remove(s[1..], x)
  }

  /** Removal keeps the order: it cuts out one position. */
  lemma {:induction false} RemoveAt<T>(s: seq<T>, x: T) returns (k: nat)
    requires x in s
    ensures k < |s| && s[k] == x && x !in s[..k] && Remove(s, x) == s[..k] + s[k + 1..]
  {
    if s[0] == x {
      k := 0;
    } else {
      assert x in s[1..];
      var k' := RemoveAt(s[1..], x);
      k := k' + 1;
      assert s[1..][k' + 1..] == s[k + 1..];
      assert [s[0]] + s[1..][..k'] == s[..k];
    }
  }

  lemma {:induction false} RemoveAbsent<T>(s: seq<T>, x: T)
    requires x !in s
    ensures Remove(s, x) == s
  {
    if s != [] {
      RemoveAbsent(s[1..], x);
    }
  }

  lemma RemoveFacts<T>(s: seq<T>, x: T)
    requires NoDuplicates(s)
    ensures NoDuplicates(Remove(s, x))
    ensures forall y :: y in Remove(s, x) <==> y in s && y != x
    ensures |Remove(s, x)| == |s| - if x in s then 1 else 0
  {
    if x in s {
      var k := RemoveAt(s, x);
      CutFacts(s, k);
    } else {
      RemoveAbsent(s, x);
    }
  }

  /** A sequence without one position. */
  lemma CutFacts<T>(s: seq<T>, k: nat)
    requires NoDuplicates(s) && k < |s|
    ensures var r := s[..k] + s[k + 1..];
      NoDuplicates(r) && forall y :: y in r <==> y in s && y != s[k]
  {
    var r := s[..k] + s[k + 1..];
    forall i | 0 <= i < |r| ensures r[i] == s[if i < k then i else i + 1] {}
    forall y ensures y in r <==> y in s && y != s[k] {
      if y in r {
        var i :| 0 <= i < |r| && r[i] == y;
        assert s[if i < k then i else i + 1] == y;
      }
      if y in s && y != s[k] {
        var i :| 0 <= i < |s| && s[i] == y;
        assert r[if i < k then i else i - 1] == y;
      }
    }
  }

  /** There are at most hi - lo different numbers from lo to hi - 1. */
  lemma {:induction false} DistinctBound(s: seq<int>, lo: int, hi: int)
    requires lo <= hi && NoDuplicates(s) && forall i :: 0 <= i < |s| ==> lo <= s[i] < hi
    ensures |s| <= hi - lo
    decreases hi - lo
  {
    if |s| > 0 {
      assert lo <= s[0] < hi;
      if hi - 1 in s {
        var k :| 0 <= k < |s| && s[k] == hi - 1;
        DistinctBound(s[..k] + s[k + 1..], lo, hi - 1);
      } else {
        DistinctBound(s, lo, hi - 1);
      }
    }
  }

  lemma NoDuplicatesAppend<T>(s: seq<T>, x: T)
    requires NoDuplicates(s) && x !in s
    ensures NoDuplicates(s + [x])
  {
  }

  /** The elements of `list` come in the same order as in `s`. */
  ghost predicate InOrder<T>(list: seq<T>, s: seq<T>) {
    forall a, b, p, q :: 0 <= a < b < |list| && 0 <= p < |s| && 0 <= q < |s| && s[p] == list[a] && s[q] == list[b] ==> p < q
  }

  lemma InOrderSkip<T>(list: seq<T>, s: seq<T>)
    requires s != [] && NoDuplicates(s) && InOrder(list, s[1..]) && forall a :: 0 <= a < |list| ==> list[a] in s[1..]
    ensures InOrder(list, s)
  {
    var rest := s[1..];
    forall a, b, p, q | 0 <= a < b < |list| && 0 <= p < |s| && 0 <= q < |s| && s[p] == list[a] && s[q] == list[b]
      ensures p < q
    {
      assert list[a] in rest && list[b] in rest;
      assert rest[p - 1] == list[a] && rest[q - 1] == list[b];
    }
  }

  lemma InOrderTake<T>(list: seq<T>, s: seq<T>)
    requires s != [] && NoDuplicates(s) && InOrder(list, s) && forall a :: 0 <= a < |list| ==> list[a] in s[1..]
    ensures InOrder([s[0]] + list, s)
  {
    var all := [s[0]] + list;
    forall a, b, p, q | 0 <= a < b < |all| && 0 <= p < |s| && 0 <= q < |s| && s[p] == all[a] && s[q] == all[b]
      ensures p < q
    {
      assert all[b] == list[b - 1];
      if a > 0 {
        assert all[a] == list[a - 1];
      }
    }
  }

  lemma InOrderSnoc<T>(list: seq<T>, s: seq<T>, x: T)
    requires NoDuplicates(s + [x]) && InOrder(list, s) && forall a :: 0 <= a < |list| ==> list[a] in s
    ensures InOrder(list, s + [x]) && InOrder(list + [x], s + [x])
  {
    var s', all := s + [x], list + [x];
    forall p | 0 <= p < |s| ensures s'[p] == s[p] != x {
      assert s'[p] != s'[|s|];
    }
    forall a, b, p, q | 0 <= a < b < |list| && 0 <= p < |s'| && 0 <= q < |s'| && s'[p] == list[a] && s'[q] == list[b]
      ensures p < q
    {
      assert list[a] in s && list[b] in s;
    }
    forall a, b, p, q | 0 <= a < b < |all| && 0 <= p < |s'| && 0 <= q < |s'| && s'[p] == all[a] && s'[q] == all[b]
      ensures p < q
    {
      assert all[a] == list[a];
      assert list[a] in s;
      if b < |list| {
        assert all[b] == list[b];
        assert list[b] in s;
      } else {
        assert all[b] == x;
      }
    }
  }
}
