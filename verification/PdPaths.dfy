/** Control paths of the Pure Data interface: how widget labels become paths, and how a message selector
    is matched against them. */
module PdPaths {

  predicate Alnum(c: char) {
    'a' <= c <= 'z' || 'A' <= c <= 'Z' || '0' <= c <= '9'
  }

  // ---------------------------------------------------------------------------------------
  // Labels
  // ---------------------------------------------------------------------------------------

  /** `s` from its first alphanumeric character on. */
  function SkipOthers(s: string): (r: string)
    ensures |r| <= |s| && (r != "" ==> Alnum(r[0]))
  {
    if s == "" || Alnum(s[0]) then s else SkipOthers(s[1..])
  }

  /** Every run of other characters becomes one dash, except at the end and, if `first`, at the beginning. */
  function Squeeze(s: string, first: bool): (r: string)
    decreases |s|
  {
    if s == "" then ""
    else if Alnum(s[0]) then [s[0]] + Squeeze(s[1..], false)
    else
      var rest := SkipOthers(s[1..]);
      (if !first && rest != "" then "-" else "") + Squeeze(rest, false)
  }

  /** Letters, digits and single dashes between them. */
  predicate Clean(s: string) {
    && (forall i :: 0 <= i < |s| ==> Alnum(s[i]) || s[i] == '-')
    && (s != "" ==> Alnum(s[|s| - 1]))
    && (forall i :: 0 <= i < |s| - 1 ==> s[i] == '-' ==> Alnum(s[i + 1]))
  }

  lemma {:induction false} SqueezeIsClean(s: string, first: bool)
    ensures Clean(Squeeze(s, first))
    ensures (first || s == "" || Alnum(s[0])) && Squeeze(s, first) != "" ==> Alnum(Squeeze(s, first)[0])
    decreases |s|
  {
    if s != "" {
      if Alnum(s[0]) {
        SqueezeIsClean(s[1..], false);
      } else {
        SqueezeIsClean(SkipOthers(s[1..]), false);
      }
    }
  }

  // ---------------------------------------------------------------------------------------
  // What becomes of the characters of a label
  // ---------------------------------------------------------------------------------------

  /** `at` are the positions of the letters and digits of `s`, in order. */
  ghost predicate Letters(s: string, at: seq<nat>) {
    && (forall k :: 0 <= k < |at| ==>
          at[k] < |s| && ('a' <= s[at[k]] <= 'z' || 'A' <= s[at[k]] <= 'Z' || '0' <= s[at[k]] <= '9'))
    && (forall j, k :: 0 <= j < k < |at| ==> at[j] < at[k])
    && (forall i :: 0 <= i < |s| && ('a' <= s[i] <= 'z' || 'A' <= s[i] <= 'Z' || '0' <= s[i] <= '9') ==> i in at)
  }

  /** The letter or digit at `at[k]` in `s` stands at `to[k]` in `r`: right behind the one before it if the two are
      neighbours in `s`, and behind a dash otherwise.  In front of the first one, other characters leave a dash exactly if
      `first` does not hold. */
  ghost predicate Lands(s: string, r: string, at: seq<nat>, to: seq<nat>, first: bool, k: nat)
    requires k < |at| == |to|
  {
    && at[k] < |s| && to[k] < |r| && r[to[k]] == s[at[k]]
    && var dash := if k == 0 then !first && at[0] > 0 else at[k] > at[k - 1] + 1;
    && to[k] == (if k == 0 then 0 else to[k - 1] + 1) + (if dash then 1 else 0)
    && (dash ==> r[to[k] - 1] == '-')
  }

  /** `r` consists of the letters and digits of `s` with these dashes, and of nothing else. */
  ghost predicate Spelled(s: string, first: bool, r: string, at: seq<nat>, to: seq<nat>) {
    && Letters(s, at) && |to| == |at|
    && (forall k :: 0 <= k < |at| ==> Lands(s, r, at, to, first, k))
    && |r| == if at == [] then 0 else to[|at| - 1] + 1
  }

  function Shift(a: seq<nat>, d: nat): (b: seq<nat>)
    ensures |b| == |a| && forall k :: 0 <= k < |b| ==> b[k] == a[k] + d
  {
    seq(|a|, k requires 0 <= k < |a| => a[k] + d)
  }

  lemma ShiftLetters(s: string, at: seq<nat>, d: nat)
    requires d <= |s| && Letters(s[d..], at) && forall i :: 0 <= i < d ==> !Alnum(s[i])
    ensures Letters(s, Shift(at, d))
  {
    forall i | 0 <= i < |s| && Alnum(s[i]) ensures i in Shift(at, d) {
      assert s[d..][i - d] == s[i];
      var k :| 0 <= k < |at| && at[k] == i - d;
      assert Shift(at, d)[k] == i;
    }
  }

  lemma FirstLetter(s: string, at: seq<nat>)
    requires s != "" && Alnum(s[0]) && Letters(s[1..], at)
    ensures Letters(s, [0] + Shift(at, 1))
  {
    forall k | 0 <= k < |at| ensures at[k] + 1 < |s| && Alnum(s[at[k] + 1]) {
      assert s[1..][at[k]] == s[at[k] + 1];
    }
    FirstLetterIs(s, at);
    FirstLetterAll(s, at);
  }

  lemma FirstLetterIs(s: string, at: seq<nat>)
    requires s != "" && Alnum(s[0]) && forall k :: 0 <= k < |at| ==> at[k] + 1 < |s| && Alnum(s[at[k] + 1])
    requires forall j, k :: 0 <= j < k < |at| ==> at[j] < at[k]
    ensures var all := [0] + Shift(at, 1);
      && (forall k :: 0 <= k < |all| ==> all[k] < |s| && Alnum(s[all[k]]))
      && (forall j, k :: 0 <= j < k < |all| ==> all[j] < all[k])
  {
    var all := [0] + Shift(at, 1);
    forall k | 0 < k < |all| ensures all[k] == at[k - 1] + 1 {}
  }

  lemma FirstLetterAll(s: string, at: seq<nat>)
    requires s != "" && Alnum(s[0]) && Letters(s[1..], at)
    ensures forall i :: 0 <= i < |s| && Alnum(s[i]) ==> i in [0] + Shift(at, 1)
  {
    var all := [0] + Shift(at, 1);
    forall i | 0 <= i < |s| && Alnum(s[i]) ensures i in all {
      if i == 0 {
        assert all[0] == 0;
      } else {
        assert s[1..][i - 1] == s[i];
        var k :| 0 <= k < |at| && at[k] == i - 1;
        assert all[k + 1] == i;
      }
    }
  }

  /** One more character in front moves everything by one. */
  lemma LandsLetter(s: string, r: string, at: seq<nat>, to: seq<nat>, first: bool, k: nat)
    requires s != "" && k < |at| == |to| && Lands(s[1..], r, at, to, false, k)
    ensures Lands(s, [s[0]] + r, [0] + Shift(at, 1), [0] + Shift(to, 1), first, k + 1)
  {
    var at', to', r' := [0] + Shift(at, 1), [0] + Shift(to, 1), [s[0]] + r;
    assert at'[k + 1] == at[k] + 1 && to'[k + 1] == to[k] + 1;
    assert k > 0 ==> at'[k] == at[k - 1] + 1 && to'[k] == to[k - 1] + 1;
    assert r'[to[k] + 1] == r[to[k]] && s[1..][at[k]] == s[at[k] + 1];
    assert to[k] > 0 ==> r'[to[k]] == r[to[k] - 1];
  }

  /** A label that begins with a letter or digit. */
  lemma SpelledLetter(s: string, first: bool, r: string, at: seq<nat>, to: seq<nat>)
    requires s != "" && Alnum(s[0]) && Spelled(s[1..], false, r, at, to)
    ensures Spelled(s, first, [s[0]] + r, [0] + Shift(at, 1), [0] + Shift(to, 1))
  {
    FirstLetter(s, at);
    AllLandLetter(s, first, r, at, to);
  }

  lemma AllLandLetter(s: string, first: bool, r: string, at: seq<nat>, to: seq<nat>)
    requires s != "" && |to| == |at| && forall k :: 0 <= k < |at| ==> Lands(s[1..], r, at, to, false, k)
    ensures var at', to', r' := [0] + Shift(at, 1), [0] + Shift(to, 1), [s[0]] + r;
      forall k :: 0 <= k < |at'| ==> Lands(s, r', at', to', first, k)
  {
    var at', to', r' := [0] + Shift(at, 1), [0] + Shift(to, 1), [s[0]] + r;
    forall k | 0 <= k < |at'| ensures Lands(s, r', at', to', first, k) {
      if k > 0 {
        LandsLetter(s, r, at, to, first, k - 1);
      }
    }
  }

  /** Other characters in front move everything, behind a dash or not. */
  lemma LandsOthers(s: string, first: bool, d: nat, r: string, at: seq<nat>, to: seq<nat>, k: nat)
    requires 0 < d < |s| && k < |at| == |to| && at[0] == 0 && Lands(s[d..], r, at, to, false, k)
    ensures var dash := if !first then "-" else "";
      Lands(s, dash + r, Shift(at, d), Shift(to, |dash|), first, k)
  {
    var dash := if !first then "-" else "";
    var r' := dash + r;
    assert r'[to[k] + |dash|] == r[to[k]] && s[d..][at[k]] == s[at[k] + d];
    assert to[k] > 0 ==> r'[to[k] + |dash| - 1] == r[to[k] - 1];
  }

  /** A label that begins with `d` other characters. */
  lemma SpelledOthers(s: string, first: bool, d: nat, r: string, at: seq<nat>, to: seq<nat>)
    requires 0 < d < |s| && (forall i :: 0 <= i < d ==> !Alnum(s[i])) && Alnum(s[d])
    requires Spelled(s[d..], false, r, at, to)
    ensures var dash := if !first then "-" else "";
      Spelled(s, first, dash + r, Shift(at, d), Shift(to, |dash|))
  {
    var dash := if !first then "-" else "";
    ShiftLetters(s, at, d);
    StartsAtOnce(s[d..], at);
    AllLandOthers(s, first, d, r, at, to);
  }

  lemma AllLandOthers(s: string, first: bool, d: nat, r: string, at: seq<nat>, to: seq<nat>)
    requires 0 < d < |s| && 0 < |to| == |at| && at[0] == 0 && forall k :: 0 <= k < |at| ==> Lands(s[d..], r, at, to, false, k)
    ensures var dash := if !first then "-" else "";
      forall k :: 0 <= k < |at| ==> Lands(s, dash + r, Shift(at, d), Shift(to, |dash|), first, k)
  {
    var dash := if !first then "-" else "";
    forall k | 0 <= k < |at| ensures Lands(s, dash + r, Shift(at, d), Shift(to, |dash|), first, k) {
      LandsOthers(s, first, d, r, at, to, k);
    }
  }

  lemma StartsAtOnce(s: string, at: seq<nat>)
    requires s != "" && Alnum(s[0]) && Letters(s, at)
    ensures at != [] && at[0] == 0
  {
    assert 0 in at;
    var k :| 0 <= k < |at| && at[k] == 0;
    assert at[0] <= at[k];
  }

  lemma NothingSpelled(s: string, first: bool)
    requires forall i :: 0 <= i < |s| ==> !Alnum(s[i])
    ensures Spelled(s, first, "", [], [])
  {
  }

  lemma {:induction false} SkipIs(s: string) returns (d: nat)
    ensures d <= |s| && SkipOthers(s) == s[d..] && (forall i :: 0 <= i < d ==> !Alnum(s[i])) && (d < |s| ==> Alnum(s[d]))
    decreases |s|
  {
    if s == "" || Alnum(s[0]) {
      d := 0;
    } else {
      var d' := SkipIs(s[1..]);
      d := d' + 1;
      assert s[1..][d'..] == s[d..];
      assert forall i :: 1 <= i < d ==> s[i] == s[1..][i - 1];
    }
  }

  /** All letters and digits of a label survive in their order, runs of other characters between them become one dash
      each, and nothing else remains. */
  lemma {:induction false} SqueezeSpells(s: string, first: bool) returns (at: seq<nat>, to: seq<nat>)
    ensures Spelled(s, first, Squeeze(s, first), at, to)
    decreases |s|
  {
    if s == "" {
      at, to := [], [];
    } else if Alnum(s[0]) {
      var at', to' := SqueezeSpells(s[1..], false);
      SpelledLetter(s, first, Squeeze(s[1..], false), at', to');
      at, to := [0] + Shift(at', 1), [0] + Shift(to', 1);
    } else {
      var d := SkipIs(s[1..]);
      assert s[1..][d..] == s[d + 1..];
      assert forall i :: 1 <= i < d + 1 ==> s[i] == s[1..][i - 1];
      if d + 1 == |s| {
        NothingSpelled(s, first);
        at, to := [], [];
      } else {
        var at', to' := SqueezeSpells(s[d + 1..], false);
        SpelledOthers(s, first, d + 1, Squeeze(s[d + 1..], false), at', to');
        at, to := Shift(at', d + 1), Shift(to', if !first then 1 else 0);
      }
    }
  }

  /** The label that is mangled: an empty label of a toplevel group stands for the name of the dsp. */
  function Source(name: string, level: int, label0: string): (r: (string, bool)) {
    if label0 == "" || label0 == "0x00" then (if level == 0 then (name, false) else ("", false)) else (label0, true)
  }

  function Mangled(name: string, level: int, label0: string): string {
    var (s, first) := Source(name, level, label0);
    Squeeze(s, first)
  }

  /** A label is spelled as it is, except that an empty one, or "0x00", stands for the name of the dsp at the top and for
      nothing below; only a name keeps a dash for what comes before its first letter or digit. */
  lemma MangledSpells(name: string, level: int, label0: string) returns (at: seq<nat>, to: seq<nat>)
    ensures var t := Mangled(name, level, label0);
      if label0 != "" && label0 != "0x00" then Spelled(label0, true, t, at, to)
      else if level == 0 then Spelled(name, false, t, at, to)
      else t == ""
  {
    var (s, first) := Source(name, level, label0);
    at, to := SqueezeSpells(s, first);
  }

  /** mangle.  The position of the loop is compared with the start of the given label only, so that a dash
      in front is dropped for a label but not for the name that replaces it. */
  method Mangle(name: string, level: int, label0: string) returns (t: string)
    ensures t == Mangled(name, level, label0)
  {
    if label0 == "" || label0 == "0x00" {
      t := SqueezeLoop(if level == 0 then name else "", false);
    } else {
      t := SqueezeLoop(label0, true);
    }
  }

  method SqueezeLoop(s: string, first: bool) returns (t: string)
    ensures t == Squeeze(s, first)
  {
    t := "";
    var p := 0;
    ghost var todo := Squeeze(s, first);
    while p < |s|
      invariant 0 <= p <= |s|
      invariant todo == Squeeze(s[p..], first && p == 0) && t + todo == Squeeze(s, first)
    {
      SqueezeStep(s, p, first && p == 0);
      if Alnum(s[p]) {
        todo := Squeeze(s[p + 1..], false);
        Associative(t, [s[p]], todo);
        t := t + [s[p]];
        p := p + 1;
      } else {
        var p1 := p;
        p := SkipRun(s, p + 1);
        var dash := if (p1 != 0 || !first) && p < |s| then "-" else "";
        todo := Squeeze(s[p..], false);
        Associative(t, dash, todo);
        t := t + dash;
      }
    }
  }

  lemma Associative(a: string, b: string, c: string)
    ensures a + b + c == a + (b + c)
  {
  }

  /** One round of the loop at position `p`. */
  lemma SqueezeStep(s: string, p: nat, first: bool)
    requires p < |s|
    ensures Alnum(s[p]) ==> Squeeze(s[p..], first) == [s[p]] + Squeeze(s[p + 1..], false)
    ensures !Alnum(s[p]) ==>
      var rest := SkipOthers(s[p + 1..]);
      Squeeze(s[p..], first) == (if !first && rest != "" then "-" else "") + Squeeze(rest, false)
  {
    assert s[p..][0] == s[p] && s[p..][1..] == s[p + 1..];
  }

  /** The inner loop over other characters. */
  method SkipRun(s: string, from: nat) returns (p: nat)
    requires from <= |s|
    ensures from <= p <= |s| && s[p..] == SkipOthers(s[from..])
  {
    p := from;
    while p < |s| && !Alnum(s[p])
      invariant from <= p <= |s| && SkipOthers(s[from..]) == SkipOthers(s[p..])
    {
      assert s[p..][1..] == s[p + 1..];
      p := p + 1;
    }
  }

  // ---------------------------------------------------------------------------------------
  // Components
  // ---------------------------------------------------------------------------------------

  function Keep(c: string): seq<string> {
    if c == "" then [] else [c]
  }

  /** The non-empty components of `s`, where `c` is the beginning of the first one. */
  function Split(c: string, s: string): (r: seq<string>)
    decreases |s|
  {
    if s == "" then Keep(c)
    else if s[0] == '/' then Keep(c) + Split("", s[1..])
    else Split(c + [s[0]], s[1..])
  }

  function Components(s: string): seq<string> {
    Split("", s)
  }

  function Join(parts: seq<string>): string {
    if parts == [] then ""
    else if |parts| == 1 then parts[0]
    else parts[0] + "/" + Join(parts[1..])
  }

  /** The absolute path with the given components. */
  function Absolute(parts: seq<string>): string {
    "/" + Join(parts)
  }

  lemma {:induction false} SplitSlash(c: string, a: string, b: string)
    ensures Split(c, a + "/" + b) == Split(c, a) + Components(b)
    decreases |a|
  {
    var s := a + "/" + b;
    if a == "" {
      assert s[0] == '/' && s[1..] == b;
    } else {
      assert s[0] == a[0] && s[1..] == a[1..] + "/" + b;
      if a[0] == '/' {
        SplitSlash("", a[1..], b);
        assert Keep(c) + (Components(a[1..]) + Components(b)) == Keep(c) + Components(a[1..]) + Components(b);
      } else {
        SplitSlash(c + [a[0]], a[1..], b);
      }
    }
  }

  lemma ComponentsConcat(a: string, b: string)
    ensures Components(a + "/" + b) == Components(a) + Components(b)
  {
    SplitSlash("", a, b);
  }

  lemma {:induction false} SplitWord(c: string, s: string)
    requires '/' !in s
    ensures Split(c, s) == Keep(c + s)
    decreases |s|
  {
    if s == "" {
      assert c + s == c;
    } else {
      assert s[0] in s && '/' !in s[1..];
      SplitWord(c + [s[0]], s[1..]);
      assert c + [s[0]] + s[1..] == c + s;
    }
  }

  lemma SplitOneWord(s: string)
    requires '/' !in s
    ensures Components(s) == Keep(s)
  {
    SplitWord("", s);
    assert "" + s == s;
  }

  predicate DoubleAt(s: string, i: int) {
    0 <= i < |s| - 1 && s[i] == '/' && s[i + 1] == '/'
  }

  ghost predicate NoDouble(s: string) {
    forall i :: !DoubleAt(s, i)
  }

  /** Without double slashes, and without a slash at either end, a path is the join of its components. */
  lemma {:induction false} JoinSplit(c: string, s: string)
    requires '/' !in c && c + s != "" && NoDouble(s)
    requires c != "" || s[0] != '/'
    requires s == "" || s[|s| - 1] != '/'
    ensures Split(c, s) != [] && Join(Split(c, s)) == c + s
    decreases |s|
  {
    if s == "" {
      assert c + s == c;
    } else if s[0] == '/' {
      var rest := s[1..];
      assert |s| > 1 && !DoubleAt(s, 0);
      assert forall i :: DoubleAt(rest, i) ==> DoubleAt(s, i + 1);
      JoinSplit("", rest);
      assert "" + rest == rest;
      assert Split(c, s) == [c] + Components(rest);
      assert ([c] + Components(rest))[1..] == Components(rest);
      assert c + "/" + rest == c + s;
    } else {
      var rest := s[1..];
      assert forall i :: DoubleAt(rest, i) ==> DoubleAt(s, i + 1);
      JoinSplit(c + [s[0]], rest);
      assert c + [s[0]] + rest == c + s;
    }
  }

  lemma ReducedPath(s: string)
    requires s != "" && s[0] == '/' && NoDouble(s)
    ensures var r := if |s| > 1 && s[|s| - 1] == '/' then s[..|s| - 1] else s;
      r == Absolute(Components(s))
  {
    var r := if |s| > 1 && s[|s| - 1] == '/' then s[..|s| - 1] else s;
    var body := r[1..];
    assert r == "/" + body;
    assert Components(s) == Components(body) by {
      if r == s {
        assert s == "" + "/" + body;
        ComponentsConcat("", body);
      } else {
        assert s == "" + "/" + (body + "/" + "");
        ComponentsConcat("", body + "/" + "");
        ComponentsConcat(body, "");
      }
    }
    if body != "" {
      assert !DoubleAt(s, 0) && body[0] == s[1];
      assert forall i :: DoubleAt(body, i) ==> DoubleAt(s, i + 1);
      if r != s {
        assert !DoubleAt(s, |s| - 2);
      }
      JoinSplit("", body);
      assert "" + body == body;
    }
  }

  /** Erasing one of two slashes does not change the components. */
  lemma EraseSlash(s: string, i: int)
    requires DoubleAt(s, i)
    ensures Components(s[..i] + s[i + 1..]) == Components(s)
  {
    var a, b := s[..i], s[i + 2..];
    assert s == a + "/" + ("" + "/" + b);
    ComponentsConcat(a, "" + "/" + b);
    ComponentsConcat("", b);
    assert s[..i] + s[i + 1..] == a + "/" + b;
    ComponentsConcat(a, b);
  }

  /** path.find("//") */
  method FindDouble(path: string) returns (pos: int)
    ensures pos >= 0 ==> DoubleAt(path, pos)
    ensures pos < 0 ==> NoDouble(path)
  {
    pos := 0;
    while pos < |path| - 1
      invariant 0 <= pos && forall i :: 0 <= i < pos ==> !DoubleAt(path, i)
    {
      if path[pos] == '/' && path[pos + 1] == '/' {
        return;
      }
      pos := pos + 1;
    }
    pos := -1;
  }

  /** normpath: the slash-separated non-empty components, behind a slash each. */
  method NormPath(path0: string) returns (path: string)
    ensures path == Absolute(Components(path0))
  {
    path := "/" + path0;
    assert path == "" + "/" + path0;
    ComponentsConcat("", path0);
    var pos := FindDouble(path);
    while pos >= 0
      invariant path != "" && path[0] == '/' && Components(path) == Components(path0)
      invariant pos >= 0 ==> DoubleAt(path, pos)
      invariant pos < 0 ==> NoDouble(path)
      decreases |path|, pos
    {
      EraseSlash(path, pos);
      path := path[..pos] + path[pos + 1..];
      pos := FindDouble(path);
    }
    ReducedPath(path);
    if |path| > 1 && path[|path| - 1] == '/' {
      path := path[..|path| - 1];
    }
  }

  /** pathcat */
  method PathCat(path: string, label0: string) returns (r: string)
    ensures r == Absolute(Components(path) + Components(label0))
  {
    if path == "" {
      r := NormPath(label0);
      assert Components(path) + Components(label0) == Components(label0);
    } else if label0 == "" {
      r := NormPath(path);
      assert Components(path) + Components(label0) == Components(path);
    } else {
      ComponentsConcat(path, label0);
      r := NormPath(path + "/" + label0);
    }
  }

  // ---------------------------------------------------------------------------------------
  // The user interface
  // ---------------------------------------------------------------------------------------

  /** What buildUserInterface declares: widgets inside nested groups. */
  datatype Tree = Widget(name: string) | Group(name: string, children: seq<Tree>)

  /** The labels of the widgets of a tree, where `parts` are the components of the enclosing groups. */
  function Labels(dsp: string, level: int, parts: seq<string>, t: Tree): seq<string>
    decreases t, 1
  {
    var parts' := parts + Keep(Mangled(dsp, level, t.name));
    match t
    case Widget(_) => [Absolute(parts')]
    case Group(_, ts) => AllLabels(dsp, level + 1, parts', ts)
  }

  function AllLabels(dsp: string, level: int, parts: seq<string>, ts: seq<Tree>): seq<string>
    decreases ts, 0
  {
    if ts == [] then [] else Labels(dsp, level, parts, ts[0]) + AllLabels(dsp, level, parts, ts[1..])
  }

  lemma MangledHasNoSlash(dsp: string, level: int, name: string)
    ensures '/' !in Mangled(dsp, level, name)
  {
    var (s, first) := Source(dsp, level, name);
    SqueezeIsClean(s, first);
  }

  class PdUI {
    const name: string
    var path: string
    var level: int
    var elems: seq<string>

    constructor (name: string, path: string)
      ensures this.name == name && this.path == path && level == 0 && elems == []
    {
      this.name, this.path, level, elems := name, path, 0, [];
    }

    method AddElem(label0: string)
      modifies `elems
      ensures elems == old(elems) + [Absolute(Components(path) + Keep(Mangled(name, level, label0)))]
    {
      var m := Mangle(name, level, label0);
      MangledHasNoSlash(name, level, label0);
      SplitOneWord(m);
      var s := PathCat(path, m);
      elems := elems + [s];
    }

    method OpenBox(label0: string)
      modifies `path, `level
      ensures level == old(level) + 1
      ensures Components(path) == Components(old(path)) + Keep(Mangled(name, old(level), label0))
      ensures path == old(path) + (if old(path) == "" then "" else "/") + Mangled(name, old(level), label0)
    {
      var m := Mangle(name, level, label0);
      MangledHasNoSlash(name, level, label0);
      SplitOneWord(m);
      ComponentsConcat(path, m);
      if path != "" {
        path := path + "/";
      }
      path := path + m;
      level := level + 1;
      assert old(path) == "" ==> path == m && Components(old(path)) + Keep(m) == Keep(m);
    }

    /** Cut the path at its last slash, or at its beginning. */
    method CloseBox()
      modifies `path, `level
      ensures level == old(level) - 1
      ensures forall a, m :: '/' !in m && old(path) == a + "/" + m ==> path == a
      ensures '/' !in old(path) ==> path == ""
    {
      var pos := |path| - 1;
      while pos >= 0 && path[pos] != '/'
        invariant -1 <= pos < |path| && '/' !in path[pos + 1..]
      {
        pos := pos - 1;
      }
      forall a, m | '/' !in m && path == a + "/" + m ensures pos == |a| && path[..pos] == a {
        LastSlash(path, a, m, pos);
      }
      path := if pos < 0 then "" else path[..pos];
      level := level - 1;
    }

    static lemma LastSlash(path: string, a: string, m: string, pos: int)
      requires '/' !in m && path == a + "/" + m
      requires -1 <= pos < |path| && '/' !in path[pos + 1..] && (pos >= 0 ==> path[pos] == '/')
      ensures pos == |a| && path[..pos] == a
    {
      assert path[|a|] == '/';
    }

    /** Build the widgets of a tree.  Every group leaves path and level as it found them. */
    method Build(t: Tree)
      modifies this
      ensures path == old(path) && level == old(level)
      ensures elems == old(elems) + Labels(name, level, Components(path), t)
      decreases t, 1
    {
      match t {
        case Widget(n) => AddElem(n);
        case Group(n, ts) =>
          MangledHasNoSlash(name, level, n);
          OpenBox(n);
          BuildAll(ts);
          assert old(path) != "" ==> path == old(path) + "/" + Mangled(name, old(level), n);
          assert old(path) == "" ==> path == Mangled(name, old(level), n);
          CloseBox();
      }
    }

    method BuildAll(ts: seq<Tree>)
      modifies this
      ensures path == old(path) && level == old(level)
      ensures elems == old(elems) + AllLabels(name, level, Components(path), ts)
      decreases ts, 0
    {
      if ts != [] {
        Build(ts[0]);
        BuildAll(ts[1..]);
      }
    }
  }

  // ---------------------------------------------------------------------------------------
  // Matching
  // ---------------------------------------------------------------------------------------

  /** strcmp: the sign of the first difference. */
  function StrCmp(s: string, t: string): (r: int)
    ensures r == 0 <==> s == t
  {
    if s == "" && t == "" then 0
    else if s == "" then -1
    else if t == "" then 1
    else if s[0] != t[0] then (if s[0] < t[0] then -1 else 1)
    else
      assert s == [s[0]] + s[1..] && t == [t[0]] + t[1..];
      StrCmp(s[1..], t[1..])
  }

  function PathCmp(s: string, t: string): int {
    var n, m := |s|, |t|;
    if n == 0 || m == 0 then 0
    else if t[0] == '/' then StrCmp(s, t)
    else if n <= m || s[n - m - 1] != '/' then StrCmp(s[1..], t)
    else StrCmp(s[n - m..], t)
  }

  predicate EndsWith(s: string, t: string) {
    |t| <= |s| && s[|s| - |t|..] == t
  }

  /** A relative name selects exactly the labels that end with a slash and the name. */
  lemma RelativeNameMatches(s: string, t: string)
    requires s != "" && s[0] == '/' && t != "" && t[0] != '/'
    ensures PathCmp(s, t) == 0 <==> EndsWith(s, "/" + t)
  {
    var n, m := |s|, |t|;
    if n > m {
      assert s[n - m - 1..] == [s[n - m - 1]] + s[n - m..];
      assert EndsWith(s, "/" + t) <==> s[n - m - 1] == '/' && s[n - m..] == t;
    }
  }

  /** An absolute name selects only itself, and the empty name selects everything. */
  lemma OtherNamesMatch(s: string, t: string)
    ensures t == "" ==> PathCmp(s, t) == 0
    ensures s != "" && t != "" && t[0] == '/' ==> (PathCmp(s, t) == 0 <==> s == t)
  {
  }

  /** Every label that the interface stores is absolute, so that the two lemmas above apply to it. */
  lemma LabelsAreAbsolute(dsp: string, level: int, parts: seq<string>, t: Tree, k: nat)
    requires k < |Labels(dsp, level, parts, t)|
    ensures var l := Labels(dsp, level, parts, t)[k]; l != "" && l[0] == '/'
    decreases t, 1
  {
    if t.Group? {
      AllLabelsAreAbsolute(dsp, level + 1, parts + Keep(Mangled(dsp, level, t.name)), t.children, k);
    }
  }

  lemma AllLabelsAreAbsolute(dsp: string, level: int, parts: seq<string>, ts: seq<Tree>, k: nat)
    requires k < |AllLabels(dsp, level, parts, ts)|
    ensures var l := AllLabels(dsp, level, parts, ts)[k]; l != "" && l[0] == '/'
    decreases ts, 0
  {
    var n := |Labels(dsp, level, parts, ts[0])|;
    if k < n {
      LabelsAreAbsolute(dsp, level, parts, ts[0], k);
    } else {
      AllLabelsAreAbsolute(dsp, level, parts, ts[1..], k - n);
    }
  }
}
