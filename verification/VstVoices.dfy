/** The VST synth: the life cycle of its voices, from free over playing and released back to free. */
module VstVoices {
  import opened Sequences

  /** A voice and the note it plays. */
  datatype Node = Node(note: int, voice: int)

  /** The free voices, the nodes of the playing ones in the order they are stolen, and the playing voices that
      are released.  `freqs` and `prev` hold the notes whose frequencies were last given to setFreq and
      setPrevFreq. */
  datatype Voices = Voices(free: seq<int>, playing: seq<Node>, released: seq<int>,
                           gates: seq<bool>, freqs: seq<int>, prev: seq<int>)

  function VoicesOf(nodes: seq<Node>): (s: seq<int>)
    ensures |s| == |nodes| && forall i :: 0 <= i < |s| ==> s[i] == nodes[i].voice
  {
    seq(|nodes|, i requires 0 <= i < |nodes| => nodes[i].voice)
  }

  /** Free and playing voices partition all voices without repetition, released ones are playing, and a playing
      voice is tuned to the note of its node. */
  ghost predicate Ok(v: Voices) {
    && |v.freqs| == |v.gates| == |v.prev|
    && NoDuplicates(v.free) && NoDuplicates(VoicesOf(v.playing)) && NoDuplicates(v.released)
    && (forall i :: 0 <= i < |v.gates| <==> i in v.free || i in VoicesOf(v.playing))
    && (forall i :: i in v.free ==> i !in VoicesOf(v.playing))
    && (forall i :: i in v.released ==> i in VoicesOf(v.playing))
  }

  ghost predicate Tuned(v: Voices) {
    forall n :: n in v.playing ==> 0 <= n.voice < |v.freqs| && v.freqs[n.voice] == n.note
  }

  /** The numbers from 0 to n - 1. */
  function Range(n: nat): (s: seq<int>)
    ensures |s| == n && forall i :: 0 <= i < n ==> s[i] == i
    ensures forall i :: i in s <==> 0 <= i < n
  {
    if n == 0 then [] else Range(n - 1) + [n - 1]
  }

  lemma First<T>(s: seq<T>) returns (x: T)
    requires s != []
    ensures x in s
  {
    x := s[0];
  }

  function InitialVoices(n: nat): Voices {
    Voices(Range(n), [], [], seq(n, _ => false), seq(n, _ => -1), seq(n, _ => -1))
  }

  lemma InitialOk(n: nat)
    ensures Ok(InitialVoices(n)) && Tuned(InitialVoices(n))
  {
  }

  // ---------------------------------------------------------------------------------------
  // Mixdown: released voices that fell silent become free
  // ---------------------------------------------------------------------------------------

  /** The nodes whose voice is not in `gone`, in order. */
  function Keep(nodes: seq<Node>, gone: set<int>): seq<Node> {
    if nodes == [] then []
    else
      var n, r := nodes[|nodes| - 1], Keep(nodes[..|nodes| - 1], gone);
      if n.voice in gone then r else r + [n]
  }

  /** The nodes whose voice is in `gone`, in order. */
  function Gone(nodes: seq<Node>, gone: set<int>): seq<Node> {
    if nodes == [] then []
    else
      var n, r := nodes[|nodes| - 1], Gone(nodes[..|nodes| - 1], gone);
      if n.voice in gone then r + [n] else r
  }

  function Without(s: seq<int>, gone: set<int>): seq<int> {
    if s == [] then []
    else
      var x, r := s[|s| - 1], Without(s[..|s| - 1], gone);
      if x in gone then r else r + [x]
  }

  /** Every node in turn leaves its note behind as the previous one of its voice. */
  function Remember(prev: seq<int>, nodes: seq<Node>): (r: seq<int>)
    requires forall i :: 0 <= i < |nodes| ==> 0 <= nodes[i].voice < |prev|
    ensures |r| == |prev|
  {
    if nodes == [] then prev
    else
      var n := nodes[|nodes| - 1];
      Remember(prev, nodes[..|nodes| - 1])[n.voice := n.note]
  }

  function Fading(v: Voices, silent: set<int>): set<int> {
    set x | x in v.released && x in silent
  }

  lemma FadingAreVoices(v: Voices, gone: set<int>)
    requires Ok(v)
    ensures forall i :: 0 <= i < |Gone(v.playing, gone)| ==> 0 <= Gone(v.playing, gone)[i].voice < |v.prev|
  {
    GoneFacts(v.playing, gone);
    var nodes := Gone(v.playing, gone);
    forall i | 0 <= i < |nodes| ensures 0 <= nodes[i].voice < |v.prev| {
      assert VoicesOf(nodes)[i] in VoicesOf(nodes);
    }
  }

  /** The part of the state that a mixdown changes, for the voices whose samples are all silent. */
  function Mixdown(v: Voices, silent: set<int>): Voices
    requires Ok(v)
  {
    var gone := Fading(v, silent);
    FadingAreVoices(v, gone);
    Voices(v.free + VoicesOf(Gone(v.playing, gone)), Keep(v.playing, gone), Without(v.released, gone),
           v.gates, v.freqs, Remember(v.prev, Gone(v.playing, gone)))
  }

  lemma {:induction false} KeepFacts(nodes: seq<Node>, gone: set<int>)
    requires NoDuplicates(VoicesOf(nodes))
    ensures NoDuplicates(VoicesOf(Keep(nodes, gone)))
    ensures forall i :: i in VoicesOf(Keep(nodes, gone)) <==> i in VoicesOf(nodes) && i !in gone
  {
    if nodes != [] {
      var n, rest := nodes[|nodes| - 1], nodes[..|nodes| - 1];
      assert nodes == rest + [n];
      Snoc(rest, n);
      KeepFacts(rest, gone);
      Snoc(Keep(rest, gone), n);
      if n.voice !in gone {
        NoDuplicatesAppend(VoicesOf(Keep(rest, gone)), n.voice);
      }
    }
  }

  lemma {:induction false} KeepNodes(nodes: seq<Node>, gone: set<int>)
    ensures forall n :: n in Keep(nodes, gone) <==> n in nodes && n.voice !in gone
  {
    if nodes != [] {
      KeepNodes(nodes[..|nodes| - 1], gone);
      assert nodes == nodes[..|nodes| - 1] + [nodes[|nodes| - 1]];
    }
  }

  lemma {:induction false} GoneFacts(nodes: seq<Node>, gone: set<int>)
    requires NoDuplicates(VoicesOf(nodes))
    ensures NoDuplicates(VoicesOf(Gone(nodes, gone)))
    ensures forall i :: i in VoicesOf(Gone(nodes, gone)) <==> i in VoicesOf(nodes) && i in gone
  {
    if nodes != [] {
      var n, rest := nodes[|nodes| - 1], nodes[..|nodes| - 1];
      assert nodes == rest + [n];
      Snoc(rest, n);
      GoneFacts(rest, gone);
      Snoc(Gone(rest, gone), n);
      if n.voice in gone {
        NoDuplicatesAppend(VoicesOf(Gone(rest, gone)), n.voice);
      }
    }
  }

  /** Adding a node adds its voice. */
  lemma Snoc(nodes: seq<Node>, n: Node)
    ensures VoicesOf(nodes + [n]) == VoicesOf(nodes) + [n.voice]
    ensures NoDuplicates(VoicesOf(nodes + [n])) ==> NoDuplicates(VoicesOf(nodes)) && n.voice !in VoicesOf(nodes)
    ensures (nodes + [n])[..|nodes|] == nodes
  {
    var s, t := VoicesOf(nodes), VoicesOf(nodes + [n]);
    assert t == s + [n.voice];
    if NoDuplicates(t) {
      forall i, j | 0 <= i < j < |s| ensures s[i] != s[j] {
        assert t[i] != t[j];
      }
      forall i | 0 <= i < |s| ensures s[i] != n.voice {
        assert t[i] != t[|s|];
      }
    }
  }

  lemma {:induction false} WithoutFacts(s: seq<int>, gone: set<int>)
    requires NoDuplicates(s)
    ensures NoDuplicates(Without(s, gone))
    ensures forall i :: i in Without(s, gone) <==> i in s && i !in gone
  {
    if s != [] {
      var x, rest := s[|s| - 1], s[..|s| - 1];
      WithoutFacts(rest, gone);
      assert s == rest + [x] && x !in rest;
      if x !in gone {
        NoDuplicatesAppend(Without(rest, gone), x);
      }
    }
  }

  /** A mixdown keeps the partition; afterwards no released voice is silent. */
  lemma MixdownOk(v: Voices, silent: set<int>)
    requires Ok(v)
    ensures Ok(Mixdown(v, silent))
    ensures forall i :: i in Mixdown(v, silent).free <==> i in v.free || (i in v.released && i in silent)
    ensures forall i :: i in Mixdown(v, silent).released <==> i in v.released && i !in silent
    ensures forall n :: n in Mixdown(v, silent).playing <==>
              n in v.playing && !(n.voice in v.released && n.voice in silent)
  {
    var gone := Fading(v, silent);
    KeepFacts(v.playing, gone);
    KeepNodes(v.playing, gone);
    GoneFacts(v.playing, gone);
    WithoutFacts(v.released, gone);
    var freed := VoicesOf(Gone(v.playing, gone));
    Disjoint(v.free, freed);
  }

  lemma {:induction false} NothingGone(nodes: seq<Node>)
    ensures Keep(nodes, {}) == nodes && Gone(nodes, {}) == []
  {
    if nodes != [] {
      NothingGone(nodes[..|nodes| - 1]);
    }
  }

  lemma {:induction false} NothingWithout(s: seq<int>)
    ensures Without(s, {}) == s
  {
    if s != [] {
      NothingWithout(s[..|s| - 1]);
    }
  }

  lemma Disjoint(s: seq<int>, t: seq<int>)
    requires NoDuplicates(s) && NoDuplicates(t) && forall i :: i in s ==> i !in t
    ensures NoDuplicates(s + t)
  {
    var u := s + t;
    forall i, j | 0 <= i < j < |u| ensures u[i] != u[j] {
      if i < |s| <= j {
        assert u[i] in s && t[j - |s|] in t;
      }
    }
  }

  // ---------------------------------------------------------------------------------------
  // Notes
  // ---------------------------------------------------------------------------------------

  /** The voice the next note gets: a free one, or else that of the longest playing node. */
  function Chosen(v: Voices): (voice: int)
    requires Ok(v) && |v.gates| > 0
    ensures 0 <= voice < |v.gates|
    ensures v.free == [] ==> v.playing != [] && voice == v.playing[0].voice
  {
    assert 0 in v.free || 0 in VoicesOf(v.playing);
    if v.free != [] then
      assert v.free[0] in v.free;
      v.free[0]
    else
      assert VoicesOf(v.playing)[0] in VoicesOf(v.playing);
      v.playing[0].voice
  }

  /** Reserve the voice, before the segment that precedes the note. */
  function Reserve(v: Voices, note: int): Voices
    requires Ok(v) && |v.gates| > 0
  {
    var voice := Chosen(v);
    if v.free != [] then
      v.(free := v.free[1..], playing := v.playing + [Node(note, voice)])
    else
      v.(playing := v.playing[1..] + [Node(note, voice)], prev := v.prev[voice := v.playing[0].note])
  }

  /** The voice starts, after that segment. */
  function Start(v: Voices, voice: int, note: int): Voices
    requires 0 <= voice < |v.gates| == |v.freqs|
  {
    v.(gates := v.gates[voice := true], freqs := v.freqs[voice := note])
  }

  function NoteOn(v: Voices, note: int, silent: set<int>): (v': Voices)
    requires Ok(v) && |v.gates| > 0
    ensures |v'.gates| == |v.gates|
  {
    ReserveOk(v, note);
    Start(Mixdown(Reserve(v, note), silent), Chosen(v), note)
  }

  lemma ReserveFree(v: Voices, note: int)
    requires Ok(v) && |v.gates| > 0 && v.free != []
    ensures Ok(Reserve(v, note))
  {
    var voice, v' := Chosen(v), Reserve(v, note);
    Snoc(v.playing, Node(note, voice));
    assert v.free == [voice] + v.free[1..];
    assert voice in v.free && voice !in v.free[1..];
    NoDuplicatesAppend(VoicesOf(v.playing), voice);
    assert forall i :: i in VoicesOf(v'.playing) <==> i in VoicesOf(v.playing) || i == voice;
    assert forall i :: i in v.free <==> i == voice || i in v'.free;
  }

  lemma ReserveStolen(v: Voices, note: int)
    requires Ok(v) && |v.gates| > 0 && v.free == []
    ensures Ok(Reserve(v, note))
  {
    var voice, v', rest := Chosen(v), Reserve(v, note), v.playing[1..];
    var s, t := VoicesOf(v.playing), VoicesOf(rest);
    Snoc(rest, Node(note, voice));
    assert s == [voice] + t;
    assert NoDuplicates(t) by {
      assert forall i :: 0 <= i < |t| ==> s[i + 1] == t[i];
    }
    assert voice !in t by {
      assert forall i :: 0 <= i < |t| ==> s[i + 1] == t[i];
    }
    NoDuplicatesAppend(t, voice);
    assert VoicesOf(v'.playing) == t + [voice];
    assert forall i :: i in s <==> i in VoicesOf(v'.playing);
  }

  lemma ReserveOk(v: Voices, note: int)
    requires Ok(v) && |v.gates| > 0
    ensures Ok(Reserve(v, note))
  {
    if v.free != [] {
      ReserveFree(v, note);
    } else {
      ReserveStolen(v, note);
    }
  }

  /** The chosen voice has a node for the note and no other one; the other nodes stay. */
  lemma ReserveNodes(v: Voices, note: int)
    requires Ok(v) && |v.gates| > 0
    ensures Node(note, Chosen(v)) in Reserve(v, note).playing
    ensures forall n :: n in Reserve(v, note).playing && n.voice == Chosen(v) ==> n.note == note
    ensures forall n: Node :: n.voice != Chosen(v) ==> (n in Reserve(v, note).playing <==> n in v.playing)
  {
    var node := Node(note, Chosen(v));
    var nodes := if v.free != [] then v.playing else v.playing[1..];
    var s := VoicesOf(nodes);
    assert Reserve(v, note).playing == nodes + [node];
    forall n | n in nodes ensures n.voice != Chosen(v) {
      var i :| 0 <= i < |nodes| && nodes[i] == n;
      if v.free != [] {
        assert VoicesOf(v.playing)[i] == n.voice && v.free[0] in v.free;
      } else {
        assert VoicesOf(v.playing)[i + 1] == n.voice && VoicesOf(v.playing)[0] == Chosen(v);
      }
    }
    if v.free == [] {
      assert v.playing == [v.playing[0]] + nodes;
    }
  }

  /** The nodes that play a note, in order. */
  function Matching(nodes: seq<Node>, note: int): seq<Node> {
    if nodes == [] then []
    else
      var n, r := nodes[|nodes| - 1], Matching(nodes[..|nodes| - 1], note);
      if n.note == note then r + [n] else r
  }

  lemma {:induction false} MatchingIn(nodes: seq<Node>, note: int)
    ensures forall n :: n in Matching(nodes, note) <==> n in nodes && n.note == note
  {
    if nodes != [] {
      MatchingIn(nodes[..|nodes| - 1], note);
      assert nodes == nodes[..|nodes| - 1] + [nodes[|nodes| - 1]];
    }
  }

  /** Release the voices of the nodes that are not released yet. */
  function Release(released: seq<int>, nodes: seq<Node>): seq<int> {
    if nodes == [] then released
    else
      var n, r := nodes[|nodes| - 1], Release(released, nodes[..|nodes| - 1]);
      if n.voice in r then r else r + [n.voice]
  }

  lemma {:induction false} ReleaseFacts(released: seq<int>, nodes: seq<Node>)
    requires NoDuplicates(released)
    ensures NoDuplicates(Release(released, nodes))
    ensures forall i :: i in Release(released, nodes) <==> i in released || i in VoicesOf(nodes)
  {
    if nodes != [] {
      var n, rest := nodes[|nodes| - 1], nodes[..|nodes| - 1];
      ReleaseFacts(released, rest);
      assert nodes == rest + [n];
      Snoc(rest, n);
      if n.voice !in Release(released, rest) {
        NoDuplicatesAppend(Release(released, rest), n.voice);
      }
    }
  }

  /** Whether the note-off releases any voice. */
  predicate Found(v: Voices, note: int) {
    Unreleased(Matching(v.playing, note), v.released)
  }

  predicate Unreleased(nodes: seq<Node>, released: seq<int>) {
    nodes != [] && (nodes[|nodes| - 1].voice !in released || Unreleased(nodes[..|nodes| - 1], released))
  }

  lemma {:induction false} UnreleasedIff(nodes: seq<Node>, released: seq<int>)
    ensures Unreleased(nodes, released) <==> exists n :: n in nodes && n.voice !in released
  {
    if nodes != [] {
      var n, rest := nodes[|nodes| - 1], nodes[..|nodes| - 1];
      assert nodes == rest + [n];
      UnreleasedIff(rest, released);
    }
  }

  /** Release the voices of the note; after the segment, close the gate of the last one found. */
  function NoteOff(v: Voices, note: int, silent: set<int>): (v': Voices)
    requires Ok(v)
    ensures |v'.gates| == |v.gates|
  {
    var nodes := Matching(v.playing, note);
    var v1 := v.(released := Release(v.released, nodes));
    ReleaseOk(v, note);
    var v2 := Mixdown(v1, silent);
    if Found(v, note) then
      LastMatchIsVoice(v, note);
      v2.(gates := v2.gates[nodes[|nodes| - 1].voice := false])
    else v2
  }

  lemma LastMatchIsVoice(v: Voices, note: int)
    requires Ok(v) && Matching(v.playing, note) != []
    ensures var nodes := Matching(v.playing, note); 0 <= nodes[|nodes| - 1].voice < |v.gates|
  {
    var nodes := Matching(v.playing, note);
    MatchingIn(v.playing, note);
    var n := nodes[|nodes| - 1];
    assert n in nodes;
    NodeIsVoice(v, n);
  }

  lemma NodeIsVoice(v: Voices, n: Node)
    requires Ok(v) && n in v.playing
    ensures 0 <= n.voice < |v.gates| && n.voice in VoicesOf(v.playing)
  {
    var i :| 0 <= i < |v.playing| && v.playing[i] == n;
    assert VoicesOf(v.playing)[i] == n.voice;
    assert n.voice in VoicesOf(v.playing);
  }

  lemma ReleaseOk(v: Voices, note: int)
    requires Ok(v)
    ensures Ok(v.(released := Release(v.released, Matching(v.playing, note))))
  {
    var nodes := Matching(v.playing, note);
    ReleaseFacts(v.released, nodes);
    MatchingIn(v.playing, note);
    forall i | i in VoicesOf(nodes) ensures i in VoicesOf(v.playing) {
      var k :| 0 <= k < |nodes| && VoicesOf(nodes)[k] == i;
      assert nodes[k] in nodes;
      NodeIsVoice(v, nodes[k]);
    }
  }

  function AllNotesOff(v: Voices): (v': Voices)
    requires Ok(v)
    ensures Ok(v')
  {
    ReleaseFacts(v.released, v.playing);
    v.(gates := seq(|v.gates|, _ => false), released := Release(v.released, v.playing))
  }

  // ---------------------------------------------------------------------------------------
  // The invariant
  // ---------------------------------------------------------------------------------------

  lemma NoteOnOk(v: Voices, note: int, silent: set<int>)
    requires Ok(v) && Tuned(v) && |v.gates| > 0
    ensures Ok(NoteOn(v, note, silent)) && Tuned(NoteOn(v, note, silent))
  {
    ReserveOk(v, note);
    ReserveNodes(v, note);
    var v1 := Reserve(v, note);
    MixdownOk(v1, silent);
    var v2, v' := Mixdown(v1, silent), NoteOn(v, note, silent);
    assert forall n :: n in v'.playing ==> n in v1.playing;
  }

  lemma MixdownTuned(v: Voices, silent: set<int>)
    requires Ok(v) && Tuned(v)
    ensures Ok(Mixdown(v, silent)) && Tuned(Mixdown(v, silent))
  {
    MixdownOk(v, silent);
  }

  lemma NoteOffOk(v: Voices, note: int, silent: set<int>)
    requires Ok(v) && Tuned(v)
    ensures Ok(NoteOff(v, note, silent)) && Tuned(NoteOff(v, note, silent))
  {
    ReleaseOk(v, note);
    var v1 := v.(released := Release(v.released, Matching(v.playing, note)));
    MixdownTuned(v1, silent);
    var v2, v' := Mixdown(v1, silent), NoteOff(v, note, silent);
    assert v' == v2.(gates := v'.gates);
  }

  lemma AllNotesOffOk(v: Voices)
    requires Ok(v) && Tuned(v)
    ensures Ok(AllNotesOff(v)) && Tuned(AllNotesOff(v))
    ensures forall i :: i in AllNotesOff(v).released <==> i in VoicesOf(v.playing)
  {
    ReleaseFacts(v.released, v.playing);
  }

  // ---------------------------------------------------------------------------------------
  // What becomes of a note
  // ---------------------------------------------------------------------------------------

  /** A note-on sounds unless it steals a released voice that is silent in the segment before the note: that voice
      is still released, so it is taken for finished and freed before its gate opens. */
  lemma NoteOnSoundsIff(v: Voices, note: int, silent: set<int>)
    requires Ok(v) && |v.gates| > 0
    ensures NoteOn(v, note, silent).gates[Chosen(v)]
    ensures Node(note, Chosen(v)) in NoteOn(v, note, silent).playing <==>
            !(v.free == [] && Chosen(v) in v.released && Chosen(v) in silent)
  {
    ReserveOk(v, note);
    ReserveNodes(v, note);
    MixdownOk(Reserve(v, note), silent);
    if v.free != [] {
      assert Chosen(v) in v.free;
    }
  }

  /** A note-off closes the gate of every voice that plays the note exactly when only the last of them has an open
      gate, and that one is closed already or some voice of the note was not released before. */
  lemma NoteOffClosesIff(v: Voices, note: int, silent: set<int>)
    requires Ok(v) && Matching(v.playing, note) != []
    ensures
      var nodes := Matching(v.playing, note);
      var last := nodes[|nodes| - 1].voice;
      (forall n :: n in v.playing && n.note == note ==>
        0 <= n.voice < |v.gates| && !NoteOff(v, note, silent).gates[n.voice]) <==>
      && (forall n :: n in v.playing && n.note == note && n.voice != last ==>
           0 <= n.voice < |v.gates| && !v.gates[n.voice])
      && (0 <= last < |v.gates| && v.gates[last] ==>
           exists n :: n in v.playing && n.note == note && n.voice !in v.released)
  {
    var nodes := Matching(v.playing, note);
    MatchingIn(v.playing, note);
    LastMatchIsVoice(v, note);
    ReleaseOk(v, note);
    var lastNode := nodes[|nodes| - 1];
    assert lastNode in nodes && lastNode in v.playing;
    forall n | n in v.playing ensures 0 <= n.voice < |v.gates| {
      NodeIsVoice(v, n);
    }
    UnreleasedIff(nodes, v.released);
    assert Found(v, note) <==> exists n :: n in v.playing && n.note == note && n.voice !in v.released;
    var v' := NoteOff(v, note, silent);
    assert v'.gates == if Found(v, note) then v.gates[lastNode.voice := false] else v.gates;
  }

  /** A segment without samples counts every voice as silent, so it frees every released voice. */
  lemma EmptySegmentFreesReleased(v: Voices)
    requires Ok(v)
    ensures Mixdown(v, Silent(0, {}, |v.gates|)).released == []
    ensures forall i :: i in v.released ==> i in Mixdown(v, Silent(0, {}, |v.gates|)).free
  {
    var v' := Mixdown(v, Silent(0, {}, |v.gates|));
    MixdownOk(v, Silent(0, {}, |v.gates|));
    assert forall i :: i in v.released ==> i in VoicesOf(v.playing) && i in Silent(0, {}, |v.gates|);
    if v'.released != [] {
      var i := First(v'.released);
      assert false;
    }
  }

  /** After all notes are off, silence returns every voice to the free list. */
  lemma SilenceFreesAll(v: Voices, silent: set<int>)
    requires Ok(v) && Tuned(v) && forall i :: 0 <= i < |v.gates| ==> i in silent
    ensures var v' := Mixdown(AllNotesOff(v), silent);
            v'.playing == [] && v'.released == [] && forall i :: 0 <= i < |v.gates| ==> i in v'.free
  {
    AllNotesOffOk(v);
    var v1 := AllNotesOff(v);
    MixdownOk(v1, silent);
    var v' := Mixdown(v1, silent);
    forall n | n in v1.playing ensures n.voice in v1.released && n.voice in silent {
      NodeIsVoice(v1, n);
    }
    if v'.playing != [] {
      var n := First(v'.playing);
      assert false;
    }
    assert forall i :: i in v1.released ==> i in VoicesOf(v.playing) && i in silent;
    if v'.released != [] {
      var i := First(v'.released);
      assert false;
    }
  }

  // ---------------------------------------------------------------------------------------
  // Chunks of samples
  // ---------------------------------------------------------------------------------------

  /** A queued note; velocity 0 is a note-off. */
  datatype Event = Event(note: int, velocity: int, delta: int)

  datatype Synth = Synth(voices: Voices, pending: seq<Event>)

  /** The voices that are silent over a segment: all of them when it has no samples, and otherwise those that the
      signal processor leaves quiet. */
  function Silent(frames: int, quiet: set<int>, polyphony: nat): set<int> {
    if frames <= 0 then set i | i in Range(polyphony) else quiet
  }

  ghost predicate Good(v: Voices) {
    Ok(v) && Tuned(v) && |v.gates| > 0
  }

  function Handle(v: Voices, e: Event, silent: set<int>): (v': Voices)
    requires Good(v)
    ensures Good(v') && |v'.gates| == |v.gates|
  {
    if e.velocity > 0 then
      NoteOnOk(v, e.note, silent);
      NoteOn(v, e.note, silent)
    else
      NoteOffOk(v, e.note, silent);
      NoteOff(v, e.note, silent)
  }

  /** The time of the last of the first `k` events. */
  function Previous(events: seq<Event>, k: nat): int
    requires k <= |events|
  {
    if k == 0 then 0 else events[k - 1].delta
  }

  /** The length of the segment before event `k`. */
  function Segment(events: seq<Event>, k: nat): int
    requires k < |events|
  {
    events[k].delta - Previous(events, k)
  }

  function Segments(events: seq<Event>, k: nat): (s: seq<int>)
    requires k <= |events|
    ensures |s| == k
  {
    if k == 0 then [] else Segments(events, k - 1) + [Segment(events, k - 1)]
  }

  /** Handle the first `k` events, event `j` after a segment whose quiet voices are `quiet(j)`. */
  function HandleFirst(v: Voices, events: seq<Event>, k: nat, quiet: nat -> set<int>): (v': Voices)
    requires Good(v) && k <= |events|
    ensures Good(v') && |v'.gates| == |v.gates|
  {
    if k == 0 then v
    else
      var silent := Silent(Segment(events, k - 1), quiet(k - 1), |v.gates|);
      Handle(HandleFirst(v, events, k - 1, quiet), events[k - 1], silent)
  }

  /** How many events are due: all before the first one that lies beyond the chunk. */
  function DueCount(events: seq<Event>, frames: int): (k: nat)
    ensures k <= |events|
    ensures forall i :: 0 <= i < k ==> events[i].delta < frames
    ensures k < |events| ==> events[k].delta >= frames
  {
    DueFrom(events, frames, 0)
  }

  function DueFrom(events: seq<Event>, frames: int, i: nat): (k: nat)
    requires i <= |events|
    ensures i <= k <= |events|
    ensures forall j :: i <= j < k ==> events[j].delta < frames
    ensures k < |events| ==> events[k].delta >= frames
    decreases |events| - i
  {
    if i == |events| || events[i].delta >= frames then i else DueFrom(events, frames, i + 1)
  }

  lemma {:induction false} DueCountIs(events: seq<Event>, frames: int, k: nat)
    requires k <= |events| && (forall i :: 0 <= i < k ==> events[i].delta < frames)
    requires k == |events| || events[k].delta >= frames
    ensures DueCount(events, frames) == k
  {
    if DueCount(events, frames) < k {
      assert false;
    }
  }

  function Postpone(events: seq<Event>, frames: int): (r: seq<Event>)
    ensures |r| == |events|
    ensures forall i :: 0 <= i < |r| ==> r[i] == Event(events[i].note, events[i].velocity, events[i].delta - frames)
  {
    seq(|events|, i requires 0 <= i < |events| => events[i].(delta := events[i].delta - frames))
  }

  /** The events that a chunk leaves in the queue. */
  function Rest(events: seq<Event>, frames: int): seq<Event> {
    Postpone(events[DueCount(events, frames)..], frames)
  }

  /** The length of the last segment: after a postponed event the whole chunk is computed again. */
  function LastSegment(events: seq<Event>, frames: int): int {
    var k := DueCount(events, frames);
    if k < |events| then frames else frames - Previous(events, k)
  }

  /** The lengths of all segments of a chunk. */
  function AllSegments(events: seq<Event>, frames: int): seq<int> {
    Segments(events, DueCount(events, frames)) + [LastSegment(events, frames)]
  }

  function Sum(s: seq<int>): int {
    if s == [] then 0 else Sum(s[..|s| - 1]) + s[|s| - 1]
  }

  lemma SumAppend(s: seq<int>, x: int)
    ensures Sum(s + [x]) == Sum(s) + x
  {
    assert (s + [x])[..|s|] == s;
  }

  lemma {:induction false} SegmentsSum(events: seq<Event>, k: nat)
    requires k <= |events|
    ensures Sum(Segments(events, k)) == Previous(events, k)
  {
    if k > 0 {
      SegmentsSum(events, k - 1);
      SumAppend(Segments(events, k - 1), Segment(events, k - 1));
    }
  }

  /** The segments add up to the chunk unless an event is postponed after others were handled: then the whole chunk
      is computed once more. */
  lemma SegmentsAddUpIff(events: seq<Event>, frames: int)
    ensures
      var k := DueCount(events, frames);
      Sum(AllSegments(events, frames)) == frames <==> k == |events| || k == 0 || events[k - 1].delta == 0
  {
    var k := DueCount(events, frames);
    SegmentsSum(events, k);
    SumAppend(Segments(events, k), LastSegment(events, frames));
  }

  /** For events in order and not before the chunk, no segment is negative. */
  lemma SortedSegments(events: seq<Event>, frames: nat)
    requires forall i, j :: 0 <= i <= j < |events| ==> 0 <= events[i].delta <= events[j].delta
    ensures forall i :: 0 <= i < |AllSegments(events, frames)| ==> AllSegments(events, frames)[i] >= 0
  {
    var k := DueCount(events, frames);
    var s := AllSegments(events, frames);
    forall i | 0 <= i < k ensures s[i] >= 0 {
      SegmentAt(events, k, i);
    }
  }

  lemma {:induction false} SegmentAt(events: seq<Event>, k: nat, i: nat)
    requires i < k <= |events|
    ensures Segments(events, k)[i] == Segment(events, i)
  {
    if i < k - 1 {
      SegmentAt(events, k - 1, i);
    }
  }

  function Process(s: Synth, frames: int, quiet: nat -> set<int>): (s': Synth)
    requires Good(s.voices)
    ensures Good(s'.voices) && s'.pending == Rest(s.pending, frames)
  {
    var k := DueCount(s.pending, frames);
    var v := HandleFirst(s.voices, s.pending, k, quiet);
    var silent := Silent(LastSegment(s.pending, frames), quiet(k), |v.gates|);
    MixdownTuned(v, silent);
    Synth(Mixdown(v, silent), Rest(s.pending, frames))
  }

  // ---------------------------------------------------------------------------------------
  // Runs
  // ---------------------------------------------------------------------------------------

  /** What the host does: queue a note, turn all notes off, or ask for a chunk of samples. */
  datatype Call =
    | Queue(event: Event)
    | Silence
    | Chunk(frames: int, quiet: nat -> set<int>)

  function React(s: Synth, call: Call): (s': Synth)
    requires Good(s.voices)
    ensures Good(s'.voices)
  {
    match call
    case Queue(e) => s.(pending := s.pending + [e])
    case Silence =>
      AllNotesOffOk(s.voices);
      s.(voices := AllNotesOff(s.voices))
    case Chunk(frames, quiet) => Process(s, frames, quiet)
  }

  function Run(s: Synth, calls: seq<Call>): (s': Synth)
    requires Good(s.voices)
    ensures Good(s'.voices)
  {
    if calls == [] then s else React(Run(s, calls[..|calls| - 1]), calls[|calls| - 1])
  }

  /** Over every run, free and playing voices partition all voices and released ones are playing. */
  lemma RunKeepsPartition(polyphony: nat, calls: seq<Call>)
    requires polyphony > 0
    ensures Good(InitialVoices(polyphony))
    ensures var v := Run(Synth(InitialVoices(polyphony), []), calls).voices;
            Ok(v) && Tuned(v) && |v.free| + |v.playing| == |v.gates|
  {
    InitialOk(polyphony);
    var v := Run(Synth(InitialVoices(polyphony), []), calls).voices;
    var s := v.free + VoicesOf(v.playing);
    Disjoint(v.free, VoicesOf(v.playing));
    Count(s, |v.gates|);
  }

  lemma {:induction false} Count(s: seq<int>, n: nat)
    requires NoDuplicates(s) && forall i :: 0 <= i < n <==> i in s
    ensures |s| == n
    decreases n
  {
    if n > 0 {
      RemoveFacts(s, n - 1);
      Count(Remove(s, n - 1), n - 1);
    } else {
      if s != [] {
        var i := First(s);
        assert false;
      }
    }
  }

  lemma PostponeTwice(events: seq<Event>, f: int, g: int, k: nat, j: nat)
    requires k + j <= |events|
    ensures Postpone(Postpone(events[k..], f)[j..], g) == Postpone(events[k + j..], f + g)
  {
    assert events[k..][j..] == events[k + j..];
  }

  lemma RestTwice(events: seq<Event>, f: int, g: int)
    requires g >= 0
    ensures Rest(Rest(events, f), g) == Rest(events, f + g)
  {
    DueTwice(events, f, g);
    PostponeTwice(events, f, g, DueCount(events, f), DueCount(Rest(events, f), g));
  }

  lemma DueTwice(events: seq<Event>, f: int, g: int)
    requires g >= 0
    ensures DueCount(events, f + g) == DueCount(events, f) + DueCount(Rest(events, f), g) <= |events|
  {
    var k := DueCount(events, f);
    var rest := Rest(events, f);
    var j := DueCount(rest, g);
    forall i | 0 <= i < k + j ensures events[i].delta < f + g {
      if i >= k {
        assert rest[i - k].delta < g;
      }
    }
    if k + j < |events| {
      assert rest[j].delta == events[k + j].delta - f;
    }
    DueCountIs(events, f + g, k + j);
  }

  /** The lengths of chunks. */
  function Frames(calls: seq<Call>): (r: seq<int>)
    requires forall i :: 0 <= i < |calls| ==> calls[i].Chunk?
    ensures |r| == |calls| && forall i :: 0 <= i < |r| ==> r[i] == calls[i].frames
  {
    seq(|calls|, i requires 0 <= i < |calls| => calls[i].frames)
  }

  /** Let every number of a sequence act in turn. */
  function Fold<T>(act: (T, int) -> T, x: T, fs: seq<int>): T {
    if fs == [] then x else act(Fold(act, x, fs[..|fs| - 1]), fs[|fs| - 1])
  }

  /** To act twice is to act once with the sum. */
  ghost predicate Adds<T(!new)>(act: (T, int) -> T) {
    forall x, f, g :: g >= 0 ==> AddsAt(act, x, f, g)
  }

  ghost predicate AddsAt<T(!new)>(act: (T, int) -> T, x: T, f: int, g: int) {
    act(act(x, f), g) == act(x, f + g)
  }

  lemma {:induction false} FoldIsSum<T(!new)>(act: (T, int) -> T, x: T, fs: seq<int>)
    requires Adds(act) && fs != [] && forall i :: 0 <= i < |fs| ==> fs[i] >= 0
    ensures Fold(act, x, fs) == act(x, Sum(fs))
    decreases |fs|
  {
    var last, front := fs[|fs| - 1], fs[..|fs| - 1];
    if front == [] {
      assert Fold(act, x, front) == x && Sum(front) == 0;
    } else {
      FoldIsSum(act, x, front);
      assert AddsAt(act, x, Sum(front), last);
    }
  }

  lemma RestAdds()
    ensures Adds(Rest)
  {
    forall x, f, g | g >= 0 ensures AddsAt(Rest, x, f, g) {
      RestTwice(x, f, g);
    }
  }

  lemma {:induction false} RunLeaves(s: Synth, calls: seq<Call>)
    requires Good(s.voices) && forall i :: 0 <= i < |calls| ==> calls[i].Chunk?
    ensures Run(s, calls).pending == Fold(Rest, s.pending, Frames(calls))
    decreases |calls|
  {
    if calls != [] {
      var front := calls[..|calls| - 1];
      RunLeaves(s, front);
      assert Frames(calls)[..|calls| - 1] == Frames(front);
    }
  }

  /** The cut into chunks does not matter for which notes are due, even when they are not sorted. */
  lemma ChunkingDoesNotMatter(s: Synth, calls: seq<Call>)
    requires Good(s.voices) && calls != []
    requires forall i :: 0 <= i < |calls| ==> calls[i].Chunk? && calls[i].frames >= 0
    ensures Run(s, calls).pending == Rest(s.pending, Sum(Frames(calls)))
  {
    RunLeaves(s, calls);
    RestAdds();
    FoldIsSum(Rest, s.pending, Frames(calls));
  }
}
