/** Linear interpolation of control vectors: m control points are spread over n samples with integer
    segment lengths and a carried remainder. */
module Interpolation {
  import opened Distribution

  /** The remainder that segment `j` of `d` segments over n - 1 steps inherits, in multiples of 1/d. */
  function Remainder(n: nat, d: nat, j: nat): (r: nat)
    requires n > 0 && d > 0
    ensures r < d
  {
    if j == 0 then 0
    else
      var carry := Remainder(n, d, j - 1) + (n - 1) % d;
      if carry >= d then carry - d else carry
  }

  /** The number of samples of segment `j`. */
  function Length(n: nat, d: nat, j: nat): nat
    requires n > 0 && d > 0
  {
    (n - 1) / d + if Remainder(n, d, j) + (n - 1) % d >= d then 1 else 0
  }

  /** The index at which segment `j` begins. */
  function Start(n: nat, d: nat, j: nat): nat
    requires n > 0 && d > 0
  {
    if j == 0 then 0 else Start(n, d, j - 1) + Length(n, d, j - 1)
  }

  /** Carrying the remainder from one segment to the next gives the exact quotients: segment `j` begins at
      the floor of j * (n - 1) / d. */
  lemma {:induction false} StartIsFloor(n: nat, d: nat, j: nat)
    requires n > 0 && d > 0
    ensures Start(n, d, j) == j * (n - 1) / d && Remainder(n, d, j) == j * (n - 1) % d
  {
    if j == 0 {
      DivMod(0, d, 0, 0);
    } else {
      StartIsFloor(n, d, j - 1);
      NextQuotient((j - 1) * (n - 1), n - 1, d);
      assert j * (n - 1) == (j - 1) * (n - 1) + (n - 1);
    }
  }

  lemma NextQuotient(x: nat, step: nat, d: nat)
    requires d > 0
    ensures var carry := x % d + step % d;
      if carry >= d then (x + step) / d == x / d + step / d + 1 && (x + step) % d == carry - d
      else (x + step) / d == x / d + step / d && (x + step) % d == carry
  {
    var q, r, irat, frac := x / d, x % d, step / d, step % d;
    assert x == d * q + r && step == d * irat + frac;
    if r + frac >= d {
      assert d * (q + irat + 1) == d * q + d * irat + d;
      DivMod(x + step, d, q + irat + 1, r + frac - d);
    } else {
      assert d * (q + irat) == d * q + d * irat;
      DivMod(x + step, d, q + irat, r + frac);
    }
  }

  lemma Ends(n: nat, d: nat)
    requires n > 0 && d > 0
    ensures Start(n, d, d) == n - 1
  {
    StartIsFloor(n, d, d);
    DivMod(d * (n - 1), d, n - 1, 0);
  }

  lemma {:induction false} StartMonotone(n: nat, d: nat, j: nat, j': nat)
    requires n > 0 && d > 0 && j <= j'
    ensures Start(n, d, j) <= Start(n, d, j')
    decreases j' - j
  {
    if j < j' {
      StartMonotone(n, d, j, j' - 1);
    }
  }

  lemma Scale(k: real, l: real, x: real)
    requires 0.0 <= k <= l && x >= 0.0
    ensures 0.0 <= k * x <= l * x
  {
    assert (l - k) * x >= 0.0;
  }

  /** The step to sample `t`, taken `len` times, covers `rise`. */
  ghost predicate Step(vals: seq<real>, t: nat, len: nat, rise: real)
    requires 0 < t < |vals|
  {
    (vals[t] - vals[t - 1]) * len as real == rise
  }

  /** The samples from `from` on begin with `a`, and `len` of their steps cover `rise`. */
  ghost predicate Steps(vals: seq<real>, from: nat, to: nat, a: real, len: nat, rise: real)
    requires from <= to <= |vals|
  {
    (from < to ==> vals[from] == a) && forall t :: from < t < to ==> Step(vals, t, len, rise)
  }

  /** The samples from `from` to `to` - 1 lie on the straight line that has the value `a` at `from` and `b` at `to`:
      all steps are the same, and the step after the last one leads to `b`. */
  ghost predicate Straight(vals: seq<real>, from: nat, to: nat, a: real, b: real)
    requires from <= to <= |vals|
  {
    from < to ==>
      && Steps(vals, from, to, a, to - from, b - a)
      && (b - vals[to - 1]) * (to - from) as real == b - a
  }

  /** Segment `j` leads from control point `j` towards the next one. */
  ghost predicate Interpolated(input: seq<real>, n: nat, vals: seq<real>, j: nat)
    requires |input| >= 2 && n > 0 && |vals| == n && j < |input| - 1
  {
    var from, to := Start(n, |input| - 1, j), Start(n, |input| - 1, j + 1);
    to <= n && Straight(vals, from, to, input[j], input[j + 1])
  }

  lemma Further(x: real, y: real, l: real, k: real, rise: real)
    requires y * l == k * rise && (x - y) * l == rise
    ensures x * l == (k + 1.0) * rise
  {
  }

  /** A straight line is where it should be at every sample. */
  lemma {:induction false} LineAt(vals: seq<real>, from: nat, to: nat, a: real, b: real, t: nat)
    requires from <= t < to <= |vals| && Straight(vals, from, to, a, b)
    ensures (vals[t] - a) * (to - from) as real == (t - from) as real * (b - a)
    decreases t
  {
    if from < t {
      LineAt(vals, from, to, a, b, t - 1);
      assert Step(vals, t, to - from, b - a);
      Further(vals[t] - a, vals[t - 1] - a, (to - from) as real, (t - 1 - from) as real, b - a);
    }
  }

  /** An interpolated value lies between its two control points. */
  lemma LineBetween(vals: seq<real>, from: nat, to: nat, a: real, b: real, t: nat)
    requires from <= t < to <= |vals| && Straight(vals, from, to, a, b)
    ensures a <= b ==> a <= vals[t] <= b
    ensures b <= a ==> b <= vals[t] <= a
  {
    LineAt(vals, from, to, a, b, t);
    Share(vals[t] - a, b - a, (t - from) as real, (to - from) as real);
  }

  lemma Share(x: real, y: real, k: real, l: real)
    requires 0.0 <= k <= l && l > 0.0 && x * l == k * y
    ensures y >= 0.0 ==> 0.0 <= x <= y
    ensures y <= 0.0 ==> y <= x <= 0.0
  {
    assert x == k * y / l;
    if y >= 0.0 {
      Scale(k, l, y);
      Quotient(k * y, l * y, l, y);
    } else {
      Scale(k, l, -y);
      Quotient(k * -y, l * -y, l, -y);
    }
  }

  lemma Quotient(p: real, q: real, l: real, y: real)
    requires l > 0.0 && 0.0 <= p <= q && q == l * y
    ensures 0.0 <= p / l <= y
  {
    assert q / l == y;
  }

  lemma StraightStays(before: seq<real>, after: seq<real>, from: nat, to: nat, a: real, b: real)
    requires from <= to <= |before| == |after| && Straight(before, from, to, a, b)
    requires forall t :: 0 <= t < to ==> after[t] == before[t]
    ensures Straight(after, from, to, a, b)
  {
    if from < to {
      StepsStay(before, after, from, to, a, to - from, b - a);
    }
  }

  lemma StepsStay(before: seq<real>, after: seq<real>, from: nat, to: nat, a: real, len: nat, rise: real)
    requires from <= to <= |before| == |after| && Steps(before, from, to, a, len, rise)
    requires forall t :: 0 <= t < to ==> after[t] == before[t]
    ensures Steps(after, from, to, a, len, rise)
  {
    forall t | from < t < to ensures Step(after, t, len, rise) {
      assert Step(before, t, len, rise);
    }
  }

  /** What is written from the beginning of segment `j` on does not change the segments before. */
  lemma SegmentsStay(input: seq<real>, n: nat, before: seq<real>, after: seq<real>, j: nat)
    requires |input| >= 2 && n > 0 && |before| == |after| == n && j <= |input| - 1
    requires forall j0 :: 0 <= j0 < j ==> Interpolated(input, n, before, j0)
    requires forall t :: 0 <= t < n && t < Start(n, |input| - 1, j) ==> after[t] == before[t]
    ensures forall j0 :: 0 <= j0 < j ==> Interpolated(input, n, after, j0)
  {
    forall j0 | 0 <= j0 < j ensures Interpolated(input, n, after, j0) {
      var d := |input| - 1;
      StartMonotone(n, d, j0 + 1, j);
      assert Interpolated(input, n, before, j0);
      StraightStays(before, after, Start(n, d, j0), Start(n, d, j0 + 1), input[j0], input[j0 + 1]);
    }
  }

  lemma StepsOn(before: seq<real>, after: seq<real>, from: nat, i: nat, a: real, del: real)
    requires from <= i < |before| == |after| && Steps(before, from, i, a, 1, del) && after == before[i := after[i]]
    requires after[i] == if from < i then before[i - 1] + del else a
    ensures Steps(after, from, i + 1, a, 1, del)
  {
    StepsStay(before, after, from, i, a, 1, del);
  }

  lemma StepsScaled(vals: seq<real>, from: nat, to: nat, a: real, len: nat, rise: real, del: real)
    requires from <= to <= |vals| && Steps(vals, from, to, a, 1, del) && del * len as real == rise
    ensures Steps(vals, from, to, a, len, rise)
  {
    forall t | from < t < to ensures Step(vals, t, len, rise) {
      assert Step(vals, t, 1, del);
    }
  }

  lemma StepsStraight(vals: seq<real>, from: nat, len: nat, a: real, b: real, del: real)
    requires len > 0 && from + len <= |vals| && Steps(vals, from, from + len, a, 1, del)
    requires del == (b - a) / len as real && a + len as real * del == vals[from + len - 1] + del
    ensures Straight(vals, from, from + len, a, b)
  {
    assert del * len as real == b - a;
    StepsScaled(vals, from, from + len, a, len, b - a, del);
  }

  /** Fill one segment. */
  method Segment(vals: array<real>, from: nat, len: nat, a: real, b: real) returns (i: nat)
    requires from + len <= vals.Length
    modifies vals
    ensures i == from + len && Straight(vals[..], from, i, a, b)
    ensures forall t :: 0 <= t < vals.Length && !(from <= t < i) ==> vals[t] == old(vals[t])
  {
    i := from;
    if len == 0 {
      return;
    }
    var del := (b - a) / len as real;
    var x := a;
    assert 0 as real * del == 0.0;
    for k := 0 to len
      invariant i == from + k && x == a + k as real * del
      invariant k > 0 ==> x == vals[i - 1] + del
      invariant Steps(vals[..], from, i, a, 1, del)
      invariant forall t :: 0 <= t < vals.Length && !(from <= t < i) ==> vals[t] == old(vals[t])
    {
      ghost var before := vals[..];
      vals[i] := x;
      StepsOn(before, vals[..], from, i, a, del);
      i := i + 1;
      assert (k + 1) as real * del == k as real * del + del;
      x := x + del;
    }
    StepsStraight(vals[..], from, len, a, b, del);
  }

  /** interpolate_ctrlin, with the ratio (n-1)/(m-1) and the rest kept as exact fractions: `frac` and `rest`
      count multiples of 1/(m-1). */
  method InterpolateCtrlIn(vals: array<real>, input: seq<real>)
    requires |input| >= 2 && vals.Length >= 1
    modifies vals
    ensures forall j :: 0 <= j < |input| - 1 ==> Interpolated(input, vals.Length, vals[..], j)
    ensures vals[vals.Length - 1] == input[|input| - 1]
  {
    var n, d := vals.Length, |input| - 1;
    var irat, frac := (n - 1) / d, (n - 1) % d;
    var rest, i := 0, 0;
    Ends(n, d);
    for j := 0 to d
      invariant i == Start(n, d, j) && rest == Remainder(n, d, j) && 0 <= i < n
      invariant forall j0 :: 0 <= j0 < j ==> Interpolated(input, n, vals[..], j0)
    {
      StartMonotone(n, d, j + 1, d);
      StartMonotone(n, d, j, d);
      var len := irat;
      rest := rest + frac;
      if rest >= d {
        len := len + 1;
        rest := rest - d;
      }
      ghost var before := vals[..];
      i := Segment(vals, i, len, input[j], input[j + 1]);
      SegmentsStay(input, n, before, vals[..], j);
      assert Interpolated(input, n, vals[..], j);
    }
    ghost var before := vals[..];
    while i < n
      invariant n - 1 <= i <= n
      invariant forall t :: 0 <= t < n - 1 ==> vals[t] == before[t]
      invariant i == n ==> vals[n - 1] == input[d]
    {
      vals[i] := input[d];
      i := i + 1;
    }
    SegmentsStay(input, n, before, vals[..], d);
  }

  /** The segments tile the indices below n - 1: each one lies in exactly one segment. */
  lemma {:induction false} SegmentOf(n: nat, d: nat, t: nat, hi: nat) returns (j: nat)
    requires n > 0 && d > 0 && hi <= d && t < Start(n, d, hi)
    ensures j < hi && Start(n, d, j) <= t < Start(n, d, j + 1)
    ensures forall j' :: 0 <= j' && Start(n, d, j') <= t < Start(n, d, j' + 1) ==> j' == j
    decreases hi
  {
    Ends(n, d);
    if t < Start(n, d, hi - 1) {
      j := SegmentOf(n, d, t, hi - 1);
    } else {
      j := hi - 1;
      forall j' | 0 <= j' && Start(n, d, j') <= t < Start(n, d, j' + 1) ensures j' == j {
        if j' < j {
          StartMonotone(n, d, j' + 1, j);
        } else if j < j' {
          StartMonotone(n, d, j + 1, j');
        }
      }
    }
  }

  /** So every sample below the last one is interpolated between the two control points around it. */
  lemma EverySampleBetween(input: seq<real>, n: nat, vals: seq<real>, t: nat) returns (j: nat)
    requires |input| >= 2 && n > 0 && |vals| == n && t < n - 1
    requires forall j :: 0 <= j < |input| - 1 ==> Interpolated(input, n, vals, j)
    ensures j < |input| - 1 && Start(n, |input| - 1, j) <= t < Start(n, |input| - 1, j + 1)
    ensures input[j] <= input[j + 1] ==> input[j] <= vals[t] <= input[j + 1]
    ensures input[j + 1] <= input[j] ==> input[j + 1] <= vals[t] <= input[j]
  {
    var d := |input| - 1;
    Ends(n, d);
    j := SegmentOf(n, d, t, d);
    assert Interpolated(input, n, vals, j);
    LineBetween(vals, Start(n, d, j), Start(n, d, j + 1), input[j], input[j + 1], t);
  }
}
