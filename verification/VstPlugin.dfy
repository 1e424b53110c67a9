/** The VST synth as the object whose lists the source updates in place. */
module VstPlugin {
  import opened Sequences
  import opened VstVoices
  import opened VstEffects

  // ---------------------------------------------------------------------------------------
  // Removing one after the other is the same as removing all
  // ---------------------------------------------------------------------------------------

  lemma {:induction false} RemoveSnoc<T>(s: seq<T>, y: T, x: T)
    ensures Remove(s + [y], x) == if x in s then Remove(s, x) + [y] else if x == y then s else s + [y]
  {
    if s == [] {
      assert s + [y] == [y] && [y][1..] == [];
    } else {
      assert (s + [y])[1..] == s[1..] + [y] && s == [s[0]] + s[1..];
      RemoveSnoc(s[1..], y, x);
    }
  }

  lemma {:induction false} WithoutMore(s: seq<int>, gone: set<int>, x: int)
    requires NoDuplicates(s) && x in s && x !in gone
    ensures Remove(Without(s, gone), x) == Without(s, gone + {x})
  {
    var y, rest := s[|s| - 1], s[..|s| - 1];
    assert s == rest + [y] && y !in rest;
    WithoutFacts(rest, gone);
    RemoveSnoc(Without(rest, gone), y, x);
    if x == y {
      WithoutSame(rest, gone, gone + {x});
    } else {
      WithoutMore(rest, gone, x);
    }
  }

  lemma {:induction false} WithoutSame(s: seq<int>, a: set<int>, b: set<int>)
    requires forall i :: i in s ==> (i in a <==> i in b)
    ensures Without(s, a) == Without(s, b)
  {
    if s != [] {
      WithoutSame(s[..|s| - 1], a, b);
    }
  }

  lemma {:induction false} KeepSame(nodes: seq<Node>, a: set<int>, b: set<int>)
    requires forall i :: i in VoicesOf(nodes) ==> (i in a <==> i in b)
    ensures Keep(nodes, a) == Keep(nodes, b)
  {
    if nodes != [] {
      var n, rest := nodes[|nodes| - 1], nodes[..|nodes| - 1];
      assert nodes == rest + [n];
      Snoc(rest, n);
      KeepSame(rest, a, b);
    }
  }

  lemma {:induction false} KeepMore(nodes: seq<Node>, gone: set<int>, x: Node)
    requires NoDuplicates(VoicesOf(nodes)) && x in nodes && x.voice !in gone
    ensures Remove(Keep(nodes, gone), x) == Keep(nodes, gone + {x.voice})
  {
    var n, rest := nodes[|nodes| - 1], nodes[..|nodes| - 1];
    assert nodes == rest + [n];
    Snoc(rest, n);
    KeepNodes(rest, gone);
    RemoveSnoc(Keep(rest, gone), n, x);
    if x == n {
      assert x !in rest by {
        InVoices(rest, x);
      }
      KeepSame(rest, gone, gone + {x.voice});
    } else {
      InVoices(rest, x);
      KeepMore(rest, gone, x);
    }
  }

  lemma InVoices(nodes: seq<Node>, n: Node)
    ensures n in nodes ==> n.voice in VoicesOf(nodes)
  {
    if n in nodes {
      var i :| 0 <= i < |nodes| && nodes[i] == n;
      assert VoicesOf(nodes)[i] == n.voice;
    }
  }

  /** The voices of the nodes, as a set. */
  ghost function VoiceSet(nodes: seq<Node>): set<int> {
    set i | i in VoicesOf(nodes)
  }

  /** The step of the mixdown loop at position i. */
  lemma MixStep(v: Voices, gone: set<int>, i: nat)
    requires Ok(v) && i < |v.playing| && forall x :: x in gone ==> x in v.released
    ensures
      var before, n := Without(v.released, gone * VoiceSet(v.playing[..i])), v.playing[i];
      && v.playing[..i + 1] == v.playing[..i] + [n]
      && v.playing[..i + 1][..i] == v.playing[..i]
      && (n.voice in before <==> n.voice in v.released)
      && Without(v.released, gone * VoiceSet(v.playing[..i + 1])) ==
           (if n.voice in gone then Remove(before, n.voice) else before)
      && (n.voice in gone ==>
           VoicesOf(Gone(v.playing[..i], gone) + [n]) == VoicesOf(Gone(v.playing[..i], gone)) + [n.voice])
  {
    var n, nodes := v.playing[i], v.playing[..i];
    var a, b := gone * VoiceSet(nodes), gone * VoiceSet(v.playing[..i + 1]);
    assert v.playing[..i + 1] == nodes + [n];
    PrefixDistinct(v.playing, i + 1);
    Snoc(nodes, n);
    WithoutFacts(v.released, a);
    Snoc(Gone(nodes, gone), n);
    assert VoiceSet(nodes + [n]) == VoiceSet(nodes) + {n.voice};
    if n.voice in gone {
      WithoutMore(v.released, a, n.voice);
      assert b == a + {n.voice};
    } else {
      assert b == a;
    }
  }

  lemma PrefixDistinct(nodes: seq<Node>, i: nat)
    requires i <= |nodes| && NoDuplicates(VoicesOf(nodes))
    ensures NoDuplicates(VoicesOf(nodes[..i]))
  {
    var s, t := VoicesOf(nodes), VoicesOf(nodes[..i]);
    assert forall j :: 0 <= j < i ==> t[j] == s[j];
  }

  /** The free and the released voices and the removed nodes after `i` nodes. */
  ghost function Sweep(v: Voices, silent: set<int>, i: nat): (seq<int>, seq<int>, seq<Node>)
    requires i <= |v.playing|
  {
    if i == 0 then (v.free, v.released, [])
    else
      var (free, released, removed) := Sweep(v, silent, i - 1);
      var n := v.playing[i - 1];
      if n.voice in silent && n.voice in released
      then (free + [n.voice], Remove(released, n.voice), removed + [n]) else (free, released, removed)
  }

  lemma {:induction false} SweepIs(v: Voices, silent: set<int>, i: nat)
    requires Ok(v) && i <= |v.playing|
    ensures Sweep(v, silent, i) == Swept(v, Fading(v, silent), i)
  {
    var gone := Fading(v, silent);
    if i == 0 {
      NothingWithout(v.released);
      assert v.playing[..0] == [] && gone * VoiceSet([]) == {} && v.free + VoicesOf([]) == v.free;
    } else {
      SweepIs(v, silent, i - 1);
      SweepStep(v, silent, i - 1);
    }
  }

  /** What the loop has reached after `i` nodes. */
  ghost function Swept(v: Voices, gone: set<int>, i: nat): (seq<int>, seq<int>, seq<Node>)
    requires i <= |v.playing|
  {
    var removed := Gone(v.playing[..i], gone);
    (v.free + VoicesOf(removed), Without(v.released, gone * VoiceSet(v.playing[..i])), removed)
  }

  lemma SweepStep(v: Voices, silent: set<int>, i: nat)
    requires Ok(v) && i < |v.playing|
    ensures
      var gone, n := Fading(v, silent), v.playing[i];
      var (free, released, removed) := Swept(v, gone, i);
      Swept(v, gone, i + 1) ==
        if n.voice in silent && n.voice in released
        then (free + [n.voice], Remove(released, n.voice), removed + [n]) else (free, released, removed)
  {
    var gone, n := Fading(v, silent), v.playing[i];
    MixStep(v, gone, i);
    var nodes := Gone(v.playing[..i], gone);
    if n.voice in gone {
      assert Gone(v.playing[..i + 1], gone) == nodes + [n];
      assert v.free + (VoicesOf(nodes) + [n.voice]) == v.free + VoicesOf(nodes) + [n.voice];
    } else {
      assert Gone(v.playing[..i + 1], gone) == nodes;
    }
  }

  /** After all positions, exactly the fading voices are gone. */
  lemma MixEnd(v: Voices, gone: set<int>)
    requires Ok(v) && forall x :: x in gone ==> x in v.released
    ensures gone * VoiceSet(v.playing) == gone
    ensures VoiceSet(Gone(v.playing, gone)) == gone
  {
    assert forall x :: x in gone ==> x in VoicesOf(v.playing);
    GoneFacts(v.playing, gone);
  }

  /** The step of the loop that erases the removed nodes. */
  lemma EraseStep(v: Voices, gone: set<int>, j: nat)
    requires Ok(v) && j < |Gone(v.playing, gone)|
    ensures
      var removed := Gone(v.playing, gone);
      && removed[j] in Keep(v.playing, VoiceSet(removed[..j]))
      && 0 <= removed[j].voice < |v.prev|
      && removed[..j + 1] == removed[..j] + [removed[j]] && removed[..j + 1][..j] == removed[..j]
      && Remove(Keep(v.playing, VoiceSet(removed[..j])), removed[j]) == Keep(v.playing, VoiceSet(removed[..j + 1]))
  {
    var removed := Gone(v.playing, gone);
    var n, done := removed[j], removed[..j];
    GoneFacts(v.playing, gone);
    GoneNodes(v.playing, gone);
    assert n in removed;
    NodeIsVoice(v, n);
    assert removed[..j + 1] == done + [n];
    PrefixDistinct(removed, j + 1);
    Snoc(done, n);
    KeepNodes(v.playing, VoiceSet(done));
    KeepMore(v.playing, VoiceSet(done), n);
    assert VoiceSet(done + [n]) == VoiceSet(done) + {n.voice};
  }

  /** The playing nodes and the previous notes after `j` of the removed nodes. */
  ghost function Erased(v: Voices, removed: seq<Node>, j: nat): (r: (seq<Node>, seq<int>))
    requires j <= |removed| && forall i :: 0 <= i < |removed| ==> 0 <= removed[i].voice < |v.prev|
    ensures |r.1| == |v.prev|
  {
    if j == 0 then (v.playing, v.prev)
    else
      var (playing, prev), n := Erased(v, removed, j - 1), removed[j - 1];
      (Remove(playing, n), prev[n.voice := n.note])
  }

  lemma {:induction false} ErasedIs(v: Voices, gone: set<int>, j: nat)
    requires Ok(v) && j <= |Gone(v.playing, gone)|
    requires forall i :: 0 <= i < |Gone(v.playing, gone)| ==> 0 <= Gone(v.playing, gone)[i].voice < |v.prev|
    ensures var removed := Gone(v.playing, gone);
      Erased(v, removed, j) == (Keep(v.playing, VoiceSet(removed[..j])), Remember(v.prev, removed[..j]))
  {
    var removed := Gone(v.playing, gone);
    if j == 0 {
      NothingGone(v.playing);
      assert removed[..0] == [] && VoiceSet([]) == {};
    } else {
      ErasedIs(v, gone, j - 1);
      EraseStep(v, gone, j - 1);
    }
  }

  lemma EraseEnd(v: Voices, gone: set<int>)
    requires Ok(v)
    ensures Keep(v.playing, VoiceSet(Gone(v.playing, gone))) == Keep(v.playing, gone)
  {
    GoneFacts(v.playing, gone);
    KeepSame(v.playing, VoiceSet(Gone(v.playing, gone)), gone);
  }

  lemma {:induction false} GoneNodes(nodes: seq<Node>, gone: set<int>)
    ensures forall n :: n in Gone(nodes, gone) <==> n in nodes && n.voice in gone
  {
    if nodes != [] {
      GoneNodes(nodes[..|nodes| - 1], gone);
      assert nodes == nodes[..|nodes| - 1] + [nodes[|nodes| - 1]];
    }
  }

  /** The step of the loop that releases voices. */
  lemma ReleaseStep(v: Voices, note: int, i: nat)
    requires Ok(v) && i < |v.playing|
    ensures
      var n, nodes := v.playing[i], Matching(v.playing[..i], note);
      && v.playing[..i + 1][..i] == v.playing[..i]
      && Matching(v.playing[..i + 1], note) == (if n.note == note then nodes + [n] else nodes)
      && (nodes + [n])[..|nodes|] == nodes
      && (n.voice in Release(v.released, nodes) <==> n.voice in v.released)
  {
    var n, all := v.playing[i], v.playing[..i];
    var nodes := Matching(all, note);
    assert v.playing[..i + 1] == all + [n] && (all + [n])[..i] == all;
    ReleaseFacts(v.released, nodes);
    MatchingIn(all, note);
    PrefixDistinct(v.playing, i + 1);
    Snoc(all, n);
    assert n.voice !in VoicesOf(nodes) by {
      forall k | 0 <= k < |nodes| ensures nodes[k].voice in VoicesOf(all) {
        assert nodes[k] in nodes;
        InVoices(all, nodes[k]);
      }
    }
  }

  /** The released voices, the last voice found, and whether any was released, after `i` nodes. */
  ghost function Scan(nodes: seq<Node>, released: seq<int>, note: int, i: nat): (seq<int>, int, bool)
    requires i <= |nodes|
  {
    if i == 0 then (released, -1, false)
    else
      var (r, voice, found) := Scan(nodes, released, note, i - 1);
      var n := nodes[i - 1];
      if n.note != note then (r, voice, found)
      else if n.voice in r then (r, n.voice, found)
      else (r + [n.voice], n.voice, true)
  }

  /** What the loop that releases voices has found after `i` nodes. */
  ghost predicate Scanned(v: Voices, note: int, i: nat, scan: (seq<int>, int, bool))
    requires i <= |v.playing|
  {
    var nodes := Matching(v.playing[..i], note);
    && scan.0 == Release(v.released, nodes) && scan.2 == Unreleased(nodes, v.released)
    && (nodes != [] ==> scan.1 == nodes[|nodes| - 1].voice)
  }

  lemma ScanStep(v: Voices, note: int, i: nat, scan: (seq<int>, int, bool))
    requires Ok(v) && i < |v.playing| && Scanned(v, note, i, scan)
    ensures var n, (r, voice, found) := v.playing[i], scan;
      Scanned(v, note, i + 1,
        if n.note != note then (r, voice, found)
        else if n.voice in r then (r, n.voice, found)
        else (r + [n.voice], n.voice, true))
  {
    ReleaseStep(v, note, i);
  }

  lemma {:induction false} ScanIs(v: Voices, note: int, i: nat)
    requires Ok(v) && i <= |v.playing|
    ensures Scanned(v, note, i, Scan(v.playing, v.released, note, i))
  {
    if i > 0 {
      ScanIs(v, note, i - 1);
      ScanStep(v, note, i - 1, Scan(v.playing, v.released, note, i - 1));
    }
  }

  lemma SegmentsStep(events: seq<Event>, k: nat)
    requires k < |events|
    ensures Segments(events, k + 1) == Segments(events, k) + [Segment(events, k)]
  {
  }

  class Faust {
    var freeVoices: seq<int>
    var playingVoices: seq<Node>
    var releasedVoices: seq<int>
    var gates: seq<bool>
    var freqs: seq<int>
    var prev: seq<int>
    var currentNotes: seq<int>
    var currentVelocities: seq<int>
    var currentDeltas: seq<int>

    function Current(): Voices
      reads this
    {
      Voices(freeVoices, playingVoices, releasedVoices, gates, freqs, prev)
    }

    /** The three queues hold the same number of entries. */
    ghost predicate Valid()
      reads this
    {
      Good(Current()) && |currentNotes| == |currentVelocities| == |currentDeltas|
    }

    function Pending(): (events: seq<Event>)
      requires |currentNotes| == |currentVelocities| == |currentDeltas|
      reads this
      ensures |events| == |currentNotes|
      ensures forall i :: 0 <= i < |events| ==>
                events[i] == Event(currentNotes[i], currentVelocities[i], currentDeltas[i])
    {
      seq(|currentNotes|, i requires 0 <= i < |currentNotes| && |currentNotes| == |currentVelocities| == |currentDeltas|
          reads this => Event(currentNotes[i], currentVelocities[i], currentDeltas[i]))
    }

    constructor (polyphony: nat)
      requires polyphony > 0
      ensures Valid() && Current() == InitialVoices(polyphony) && Pending() == []
      ensures |freeVoices| == |gates| == polyphony && playingVoices == [] && releasedVoices == []
      ensures forall i :: 0 <= i < polyphony ==> freeVoices[i] == i && !gates[i]
    {
      freeVoices, playingVoices, releasedVoices := [], [], [];
      gates, freqs, prev := seq(polyphony, _ => false), seq(polyphony, _ => -1), seq(polyphony, _ => -1);
      currentNotes, currentVelocities, currentDeltas := [], [], [];
      new;
      for i := 0 to polyphony
        invariant freeVoices == Range(i) && playingVoices == [] && releasedVoices == [] && currentNotes == []
        invariant gates == seq(polyphony, _ => false) && freqs == prev == seq(polyphony, _ => -1)
        invariant currentVelocities == currentDeltas == []
      {
        freeVoices := freeVoices + [i];
      }
      InitialOk(polyphony);
    }

    /** noteOn and, with velocity 0, noteOff. */
    method QueueNote(note: int, velocity: int, delta: int)
      requires Valid()
      modifies this
      ensures Valid() && Current() == old(Current()) && Pending() == old(Pending()) + [Event(note, velocity, delta)]
    {
      currentNotes := currentNotes + [note];
      currentVelocities := currentVelocities + [velocity];
      currentDeltas := currentDeltas + [delta];
    }

    /** The first loop of compute: free the released voices that are silent, and note their nodes. */
    method FreeSilent(frames: int, quiet: set<int>) returns (removed: seq<Node>)
      requires Ok(Current())
      modifies this`freeVoices, this`releasedVoices
      ensures
        var v := old(Current());
        var gone := Fading(v, Silent(frames, quiet, |v.gates|));
        && removed == Gone(v.playing, gone)
        && freeVoices == v.free + VoicesOf(removed) && releasedVoices == Without(v.released, gone)
    {
      ghost var v := Current();
      ghost var silents := Silent(frames, quiet, |v.gates|);
      removed := [];
      for i := 0 to |playingVoices|
        invariant (freeVoices, releasedVoices, removed) == Sweep(v, silents, i)
      {
        var voice := playingVoices[i].voice;
        var silent := frames <= 0 || voice in quiet;
        NodeIsVoice(v, v.playing[i]);
        if silent && voice in releasedVoices {
          freeVoices := freeVoices + [voice];
          releasedVoices := Remove(releasedVoices, voice);
          removed := removed + [playingVoices[i]];
        }
      }
      SweepIs(v, silents, |v.playing|);
      assert v.playing[..|v.playing|] == v.playing;
      MixEnd(v, Fading(v, silents));
    }

    /** The second loop of compute: erase the nodes of the freed voices. */
    method Erase(removed: seq<Node>, ghost v: Voices, ghost gone: set<int>)
      requires Ok(v) && v.playing == playingVoices && v.prev == prev && removed == Gone(v.playing, gone)
      modifies this`playingVoices, this`prev
      ensures playingVoices == Keep(v.playing, gone)
      ensures forall i :: 0 <= i < |removed| ==> 0 <= removed[i].voice < |v.prev|
      ensures prev == Remember(v.prev, removed)
    {
      FadingAreVoices(v, gone);
      var left := removed;
      ghost var j := 0;
      while left != []
        invariant j <= |removed| && left == removed[j..]
        invariant (playingVoices, prev) == Erased(v, removed, j)
        decreases |left|
      {
        var n := left[0];
        prev := prev[n.voice := n.note];
        playingVoices := Remove(playingVoices, n);
        left := left[1..];
        j := j + 1;
      }
      ErasedIs(v, gone, |removed|);
      assert removed[..|removed|] == removed;
      EraseEnd(v, gone);
    }

    method Compute(frames: int, quiet: set<int>)
      requires Ok(Current())
      modifies this`freeVoices, this`releasedVoices, this`playingVoices, this`prev
      ensures Current() == Mixdown(old(Current()), Silent(frames, quiet, |gates|)) && Ok(Current())
    {
      ghost var v := Current();
      ghost var silent := Silent(frames, quiet, |v.gates|);
      var removed := FreeSilent(frames, quiet);
      Erase(removed, v, Fading(v, silent));
      assert Current() == Mixdown(v, silent);
      MixdownOk(v, silent);
    }

    /** A note-on: reserve a voice, compute the segment before the note, start the voice. */
    method StartNote(note: int, frames: int, quiet: set<int>)
      requires Good(Current())
      modifies this`freeVoices, this`releasedVoices, this`playingVoices, this`prev, this`gates, this`freqs
      ensures Current() == NoteOn(old(Current()), note, Silent(frames, quiet, |gates|))
    {
      ghost var v := Current();
      ReserveOk(v, note);
      ghost var chosen := Chosen(v);
      var currentVoice;
      if |freeVoices| > 0 {
        currentVoice := freeVoices[0];
        freeVoices := freeVoices[1..];
        playingVoices := playingVoices + [Node(note, currentVoice)];
      } else {
        var front := playingVoices[0];
        currentVoice := front.voice;
        prev := prev[currentVoice := front.note];
        playingVoices := playingVoices[1..] + [Node(note, currentVoice)];
      }
      assert Current() == Reserve(v, note);
      Compute(frames, quiet);
      freqs := freqs[currentVoice := note];
      gates := gates[currentVoice := true];
    }

    /** Release the voices of the note; `currentVoice` is the last one found. */
    method ReleaseNote(note: int) returns (currentVoice: int, voiceFound: bool)
      requires Ok(Current())
      modifies this`releasedVoices
      ensures
        var v := old(Current());
        var nodes := Matching(v.playing, note);
        && releasedVoices == Release(v.released, nodes) && voiceFound == Found(v, note)
        && (nodes != [] ==> currentVoice == nodes[|nodes| - 1].voice)
    {
      ghost var v := Current();
      currentVoice, voiceFound := -1, false;
      for i := 0 to |playingVoices|
        invariant (releasedVoices, currentVoice, voiceFound) == Scan(v.playing, v.released, note, i)
      {
        if playingVoices[i].note == note {
          currentVoice := playingVoices[i].voice;
          if currentVoice !in releasedVoices {
            releasedVoices := releasedVoices + [currentVoice];
            voiceFound := true;
          }
        }
      }
      ScanIs(v, note, |v.playing|);
      assert v.playing[..|v.playing|] == v.playing;
    }

    /** A note-off: release the voices of the note, compute the segment before its end, close a gate. */
    method EndNote(note: int, frames: int, quiet: set<int>)
      requires Ok(Current())
      modifies this`freeVoices, this`releasedVoices, this`playingVoices, this`prev, this`gates
      ensures Current() == NoteOff(old(Current()), note, Silent(frames, quiet, |gates|))
    {
      ghost var v := Current();
      ReleaseOk(v, note);
      var currentVoice, voiceFound := ReleaseNote(note);
      assert Current() == v.(released := Release(v.released, Matching(v.playing, note)));
      Compute(frames, quiet);
      if voiceFound {
        LastMatchIsVoice(v, note);
        gates := gates[currentVoice := false];
      }
    }

    method CloseGates()
      modifies this`gates
      ensures |gates| == |old(gates)| && forall j :: 0 <= j < |gates| ==> !gates[j]
    {
      for i := 0 to |gates|
        invariant |gates| == |old(gates)|
        invariant forall j :: 0 <= j < i ==> !gates[j]
      {
        gates := gates[i := false];
      }
    }

    method ReleasePlaying()
      modifies this`releasedVoices
      ensures releasedVoices == Release(old(releasedVoices), playingVoices)
    {
      assert playingVoices[..0] == [];
      for i := 0 to |playingVoices|
        invariant releasedVoices == Release(old(releasedVoices), playingVoices[..i])
      {
        assert playingVoices[..i + 1][..i] == playingVoices[..i];
        var voice := playingVoices[i].voice;
        if voice !in releasedVoices {
          releasedVoices := releasedVoices + [voice];
        }
      }
      assert playingVoices[..|playingVoices|] == playingVoices;
    }

    method AllOff()
      requires Valid()
      modifies this`gates, this`releasedVoices
      ensures Valid() && Current() == AllNotesOff(old(Current()))
    {
      ghost var v := Current();
      CloseGates();
      ReleasePlaying();
      AllNotesOffOk(v);
      assert gates == seq(|v.gates|, _ => false);
      assert Current() == AllNotesOff(v);
    }

    /** Take the first event out of the queues. */
    method PopEvent() returns (e: Event)
      requires |currentNotes| == |currentVelocities| == |currentDeltas| && |currentNotes| > 0
      modifies this`currentNotes, this`currentVelocities, this`currentDeltas
      ensures |currentNotes| == |currentVelocities| == |currentDeltas|
      ensures e == old(Pending())[0] && Pending() == old(Pending())[1..]
    {
      e := Event(currentNotes[0], currentVelocities[0], currentDeltas[0]);
      currentNotes, currentVelocities, currentDeltas := currentNotes[1..], currentVelocities[1..], currentDeltas[1..];
    }

    method HandleEvent(e: Event, frames: int, quiet: set<int>)
      requires Good(Current())
      modifies this`freeVoices, this`releasedVoices, this`playingVoices, this`prev, this`gates, this`freqs
      ensures Current() == Handle(old(Current()), e, Silent(frames, quiet, |gates|))
    {
      if e.velocity > 0 {
        StartNote(e.note, frames, quiet);
      } else {
        EndNote(e.note, frames, quiet);
      }
    }

    /** The events beyond the chunk come nearer by its length. */
    method ShiftDeltas(frames: int)
      requires |currentNotes| == |currentVelocities| == |currentDeltas|
      modifies this`currentDeltas
      ensures |currentNotes| == |currentVelocities| == |currentDeltas|
      ensures Pending() == Postpone(old(Pending()), frames)
    {
      ghost var deltas := currentDeltas;
      for i := 0 to |currentDeltas|
        invariant |currentDeltas| == |deltas|
        invariant forall j :: 0 <= j < |deltas| ==> currentDeltas[j] == if j < i then deltas[j] - frames else deltas[j]
      {
        currentDeltas := currentDeltas[i := currentDeltas[i] - frames];
      }
    }

    /** The first `k` of the events are handled and out of the queues. */
    ghost predicate Handled(states: seq<Voices>, events: seq<Event>, k: nat)
      reads this
    {
      && k <= |events| && k < |states| && |currentNotes| == |currentVelocities| == |currentDeltas|
      && Pending() == events[k..] && Current() == states[k]
    }

    /** Take the next event out of the queues and handle it after the segment that leads up to it. */
    method HandleNext(ghost states: seq<Voices>, ghost events: seq<Event>, k: nat, previousDelta: int,
                      quiet: nat -> set<int>)
      returns (delta: int, count: int)
      requires Trace(states, events, quiet) && k < |events|
      requires Handled(states, events, k) && previousDelta == Previous(events, k)
      modifies this
      ensures Handled(states, events, k + 1)
      ensures delta == events[k].delta && count == Segment(events, k)
    {
      assert Link(states, events, k, quiet);
      assert events[k..][1..] == events[k + 1..];
      var e := PopEvent();
      delta := e.delta;
      count := delta - previousDelta;
      HandleEvent(e, count, quiet(k));
    }

    /** Handle the events of the chunk, each after the segment that leads up to it. */
    method HandleDue(ghost states: seq<Voices>, ghost events: seq<Event>, frames: int, quiet: nat -> set<int>)
      returns (segments: seq<int>, previousDelta: int)
      requires Trace(states, events, quiet) && Handled(states, events, 0)
      modifies this
      ensures Handled(states, events, |segments|)
      ensures |segments| == DueCount(events, frames)
      ensures segments == Segments(events, |segments|) && previousDelta == Previous(events, |segments|)
    {
      segments, previousDelta := [], 0;
      while |currentNotes| > 0 && currentDeltas[0] < frames
        invariant |segments| <= |events| && Handled(states, events, |segments|)
        invariant segments == Segments(events, |segments|) && previousDelta == Previous(events, |segments|)
        invariant forall i :: 0 <= i < |segments| ==> events[i].delta < frames
        decreases |events| - |segments|
      {
        assert Pending()[0] == events[|segments|];
        SegmentsStep(events, |segments|);
        var delta, count := HandleNext(states, events, |segments|, previousDelta, quiet);
        segments, previousDelta := segments + [count], delta;
      }
      assert |currentNotes| > 0 ==> Pending()[0] == events[|segments|];
      DueCountIs(events, frames, |segments|);
    }

    /** Compute the rest of the chunk, or all of it again when an event lies beyond. */
    method FinishChunk(ghost events: seq<Event>, frames: int, previousDelta: int, quiet: set<int>)
      returns (count: int)
      requires Ok(Current()) && |currentNotes| == |currentVelocities| == |currentDeltas|
      requires Pending() == events[DueCount(events, frames)..]
      requires previousDelta == Previous(events, DueCount(events, frames))
      modifies this
      ensures Current() == Mixdown(old(Current()), Silent(count, quiet, |old(gates)|))
      ensures |currentNotes| == |currentVelocities| == |currentDeltas| && Pending() == Rest(events, frames)
      ensures count == LastSegment(events, frames)
    {
      if |currentNotes| > 0 {
        ShiftDeltas(frames);
        count := frames;
      } else {
        count := frames - previousDelta;
      }
      Compute(count, quiet);
    }

    /** `segments` are the lengths passed to compute. */
    method SynthProcessReplacing(frames: int, quiet: nat -> set<int>) returns (segments: seq<int>, ghost states: seq<Voices>)
      requires Valid()
      modifies this
      ensures Valid()
      ensures Synth(Current(), Pending()) == Process(old(Synth(Current(), Pending())), frames, quiet)
      ensures segments == AllSegments(old(Pending()), frames)
      ensures ChunkRun(states, old(Pending()), Pending(), segments, frames, quiet)
      ensures states[0] == old(Current()) && states[|states| - 1] == Current()
    {
      ghost var s := Synth(Current(), Pending());
      ghost var s' := Process(s, frames, quiet);
      var previousDelta;
      states := States(s.voices, s.pending, quiet);
      segments, previousDelta := HandleDue(states, s.pending, frames, quiet);
      assert Current() == HandleFirst(s.voices, s.pending, |segments|, quiet);
      var count := FinishChunk(s.pending, frames, previousDelta, quiet(|segments|));
      ChunkIs(states, s.pending, frames, quiet, Current());
      states := states[..|segments| + 1] + [Current()];
      segments := segments + [count];
      assert Synth(Current(), Pending()) == s';
    }
  }
}
