/** What notes, segments and chunks do to the voices of the VST synth, field by field. */
module VstEffects {
  import opened Sequences
  import opened VstVoices

  // ---------------------------------------------------------------------------------------
  // Segments
  // ---------------------------------------------------------------------------------------

  /** The released voices that are silent become free, in the order in which they play, and keep their note as the
      previous one; everything else stays, in its order. */
  ghost predicate MixdownEffect(v: Voices, v': Voices, silent: set<int>) {
    && v'.gates == v.gates && v'.freqs == v.freqs
    && InOrder(v'.playing, v.playing)
    && (forall n :: n in v'.playing <==> n in v.playing && !(n.voice in v.released && n.voice in silent))
    && InOrder(v'.released, v.released)
    && (forall i :: i in v'.released <==> i in v.released && i !in silent)
    && exists gone: seq<Node> ::
      && InOrder(gone, v.playing)
      && (forall n :: n in gone <==> n in v.playing && n.voice in v.released && n.voice in silent)
      && v'.free == v.free + VoicesOf(gone)
      && LeavesNotes(v.prev, v'.prev, gone)
  }

  /** The voices of these nodes have the notes of the nodes as previous ones, and the others what they had. */
  ghost predicate LeavesNotes(prev: seq<int>, prev': seq<int>, nodes: seq<Node>) {
    && |prev'| == |prev|
    && (forall k :: 0 <= k < |nodes| ==> 0 <= nodes[k].voice < |prev| && prev'[nodes[k].voice] == nodes[k].note)
    && (forall i :: 0 <= i < |prev| && i !in VoicesOf(nodes) ==> prev'[i] == prev[i])
  }

  lemma {:induction false} RememberLeaves(prev: seq<int>, nodes: seq<Node>)
    requires NoDuplicates(VoicesOf(nodes)) && forall i :: 0 <= i < |nodes| ==> 0 <= nodes[i].voice < |prev|
    ensures LeavesNotes(prev, Remember(prev, nodes), nodes)
  {
    if nodes != [] {
      var n, rest := nodes[|nodes| - 1], nodes[..|nodes| - 1];
      assert nodes == rest + [n];
      Snoc(rest, n);
      RememberLeaves(prev, rest);
      forall k | 0 <= k < |rest| ensures rest[k].voice != n.voice {
        assert VoicesOf(rest)[k] in VoicesOf(rest);
      }
      assert n.voice in VoicesOf(nodes) by {
        assert VoicesOf(nodes)[|rest|] == n.voice;
      }
      forall i | i in VoicesOf(rest) ensures i in VoicesOf(nodes) {
      }
    }
  }

  lemma DistinctNodes(nodes: seq<Node>)
    requires NoDuplicates(VoicesOf(nodes))
    ensures NoDuplicates(nodes)
  {
    forall i, j | 0 <= i < j < |nodes| ensures nodes[i] != nodes[j] {
      assert VoicesOf(nodes)[i] != VoicesOf(nodes)[j];
    }
  }

  lemma {:induction false} KeepInOrder(nodes: seq<Node>, gone: set<int>)
    requires NoDuplicates(nodes)
    ensures InOrder(Keep(nodes, gone), nodes) && InOrder(Gone(nodes, gone), nodes)
    ensures forall n :: n in Gone(nodes, gone) <==> n in nodes && n.voice in gone
  {
    if nodes != [] {
      var n, rest := nodes[|nodes| - 1], nodes[..|nodes| - 1];
      assert nodes == rest + [n];
      KeepInOrder(rest, gone);
      KeepNodes(rest, gone);
      var kept, lost := Keep(rest, gone), Gone(rest, gone);
      forall a | 0 <= a < |kept| ensures kept[a] in rest {
        assert kept[a] in kept;
      }
      forall a | 0 <= a < |lost| ensures lost[a] in rest {
        assert lost[a] in lost;
      }
      InOrderSnoc(kept, rest, n);
      InOrderSnoc(lost, rest, n);
    }
  }

  lemma {:induction false} WithoutInOrder(s: seq<int>, gone: set<int>)
    requires NoDuplicates(s)
    ensures InOrder(Without(s, gone), s)
  {
    if s != [] {
      var x, rest := s[|s| - 1], s[..|s| - 1];
      assert s == rest + [x];
      WithoutInOrder(rest, gone);
      WithoutFacts(rest, gone);
      var r := Without(rest, gone);
      forall a | 0 <= a < |r| ensures r[a] in rest {
        var i := r[a];
        assert i in r;
        assert i in rest && i !in gone;
      }
      InOrderSnoc(r, rest, x);
    }
  }

  lemma MixdownEffects(v: Voices, silent: set<int>)
    requires Ok(v)
    ensures MixdownEffect(v, Mixdown(v, silent), silent)
  {
    var fading := Fading(v, silent);
    var gone := Gone(v.playing, fading);
    DistinctNodes(v.playing);
    KeepInOrder(v.playing, fading);
    WithoutInOrder(v.released, fading);
    MixdownOk(v, silent);
    GoneFacts(v.playing, fading);
    FadingAreVoices(v, fading);
    RememberLeaves(v.prev, gone);
  }

  // ---------------------------------------------------------------------------------------
  // Notes
  // ---------------------------------------------------------------------------------------

  /** Voice `i` gets a node for the note at the end: the first free voice if there is one, and otherwise the voice of the
      first node, which keeps the note of that node as the previous one. */
  ghost predicate ReserveEffect(v: Voices, v': Voices, note: int, i: int) {
    if v.free != [] then
      i == v.free[0] && v' == v.(free := v.free[1..], playing := v.playing + [Node(note, i)])
    else
      && v.playing != [] && i == v.playing[0].voice && 0 <= i < |v.prev|
      && v' == v.(playing := v.playing[1..] + [Node(note, i)], prev := v.prev[i := v.playing[0].note])
  }

  /** A note-on reserves a voice, computes the segment before the note, and then opens the gate of the voice and sets its
      frequency. */
  ghost predicate NoteOnEffect(v: Voices, v': Voices, note: int, silent: set<int>) {
    exists i, reserved, mixed ::
      && ReserveEffect(v, reserved, note, i) && MixdownEffect(reserved, mixed, silent)
      && 0 <= i < |v.gates| && |v.gates| == |mixed.gates| == |mixed.freqs|
      && v' == mixed.(gates := mixed.gates[i := true], freqs := mixed.freqs[i := note])
  }

  lemma NoteOnEffects(v: Voices, note: int, silent: set<int>)
    requires Ok(v) && |v.gates| > 0
    ensures NoteOnEffect(v, NoteOn(v, note, silent), note, silent)
  {
    var i, reserved := Chosen(v), Reserve(v, note);
    ReserveOk(v, note);
    MixdownEffects(reserved, silent);
    assert ReserveEffect(v, reserved, note, i);
    assert MixdownEffect(reserved, Mixdown(reserved, silent), silent);
  }

  /** `list` are the released voices and the voices of the nodes that play the note. */
  ghost predicate ReleasesNote(v: Voices, note: int, list: seq<int>) {
    && NoDuplicates(list)
    && (forall i :: i in list ==> i in v.released || exists n :: n in v.playing && n.note == note && n.voice == i)
    && (forall i :: i in v.released ==> i in list)
    && (forall n :: n in v.playing && n.note == note ==> n.voice in list)
  }

  /** Node `k` is the last one that plays the note. */
  ghost predicate LastNode(nodes: seq<Node>, note: int, k: int) {
    0 <= k < |nodes| && nodes[k].note == note && forall j :: k < j < |nodes| ==> nodes[j].note != note
  }

  /** A note-off releases all voices of the note and computes the segment before its end; then, if it has released any, it
      closes the gate of the last of them. */
  ghost predicate NoteOffEffect(v: Voices, v': Voices, note: int, silent: set<int>) {
    exists list, mixed ::
      ReleasesNote(v, note, list) && MixdownEffect(v.(released := list), mixed, silent) && EndsNote(v, mixed, v', note)
  }

  ghost predicate EndsNote(v: Voices, mixed: Voices, v': Voices, note: int) {
    if exists n :: n in v.playing && n.note == note && n.voice !in v.released then
      exists k :: LastNode(v.playing, note, k) && ClosesGate(mixed, v', v.playing[k].voice)
    else v' == mixed
  }

  ghost predicate ClosesGate(v: Voices, v': Voices, i: int) {
    0 <= i < |v.gates| && v' == v.(gates := v.gates[i := false])
  }

  lemma {:induction false} LastMatch(nodes: seq<Node>, note: int) returns (k: nat)
    requires Matching(nodes, note) != []
    ensures var r := Matching(nodes, note); LastNode(nodes, note, k) && nodes[k] == r[|r| - 1]
  {
    var n, rest := nodes[|nodes| - 1], nodes[..|nodes| - 1];
    if n.note == note {
      k := |nodes| - 1;
    } else {
      k := LastMatch(rest, note);
    }
  }

  lemma NoteOffReleases(v: Voices, note: int)
    requires Ok(v)
    ensures ReleasesNote(v, note, Release(v.released, Matching(v.playing, note)))
  {
    var nodes := Matching(v.playing, note);
    ReleaseFacts(v.released, nodes);
    MatchingIn(v.playing, note);
    forall i | i in VoicesOf(nodes) ensures exists n :: n in v.playing && n.note == note && n.voice == i {
      var k :| 0 <= k < |nodes| && VoicesOf(nodes)[k] == i;
      assert nodes[k] in nodes;
    }
    forall n | n in v.playing && n.note == note ensures n.voice in VoicesOf(nodes) {
      var k :| 0 <= k < |nodes| && nodes[k] == n;
      assert VoicesOf(nodes)[k] == n.voice;
    }
  }

  lemma NoteOffEffects(v: Voices, note: int, silent: set<int>)
    requires Ok(v)
    ensures NoteOffEffect(v, NoteOff(v, note, silent), note, silent)
  {
    var nodes := Matching(v.playing, note);
    var list := Release(v.released, nodes);
    NoteOffReleases(v, note);
    ReleaseOk(v, note);
    var mixed := Mixdown(v.(released := list), silent);
    MixdownEffects(v.(released := list), silent);
    NoteOffEnds(v, note, silent, mixed);
  }

  lemma FoundIff(v: Voices, note: int)
    ensures Found(v, note) <==> exists n :: n in v.playing && n.note == note && n.voice !in v.released
  {
    MatchingIn(v.playing, note);
    UnreleasedIff(Matching(v.playing, note), v.released);
  }

  lemma NoteOffEnds(v: Voices, note: int, silent: set<int>, mixed: Voices)
    requires Ok(v)
    requires var list := Release(v.released, Matching(v.playing, note));
      Ok(v.(released := list)) && mixed == Mixdown(v.(released := list), silent)
    ensures EndsNote(v, mixed, NoteOff(v, note, silent), note)
  {
    FoundIff(v, note);
    if Found(v, note) {
      var k := LastMatch(v.playing, note);
      LastMatchIsVoice(v, note);
      assert ClosesGate(mixed, NoteOff(v, note, silent), v.playing[k].voice);
    }
  }

  /** All notes off closes all gates and releases all playing voices. */
  ghost predicate AllOffEffect(v: Voices, v': Voices) {
    && v' == v.(gates := v'.gates, released := v'.released) && |v'.gates| == |v.gates| && NoDuplicates(v'.released)
    && (forall i :: 0 <= i < |v.gates| ==> !v'.gates[i])
    && (forall i :: i in v'.released <==> i in VoicesOf(v.playing))
  }

  lemma AllOffEffects(v: Voices)
    requires Ok(v) && Tuned(v)
    ensures AllOffEffect(v, AllNotesOff(v))
  {
    AllNotesOffOk(v);
  }

  // ---------------------------------------------------------------------------------------
  // Chunks
  // ---------------------------------------------------------------------------------------

  /** Over a segment without samples every voice counts as silent; over another one, the quiet ones are. */
  ghost predicate SilentIn(frames: int, quiet: set<int>, polyphony: nat, silent: set<int>) {
    if frames <= 0 then forall i :: i in silent <==> 0 <= i < polyphony else silent == quiet
  }

  /** Velocity 0 ends a note. */
  ghost predicate EventEffect(v: Voices, v': Voices, e: Event, frames: int, quiet: set<int>) {
    exists silent ::
      && SilentIn(frames, quiet, |v.gates|, silent)
      && if e.velocity > 0 then NoteOnEffect(v, v', e.note, silent) else NoteOffEffect(v, v', e.note, silent)
  }

  lemma HandleEffects(v: Voices, e: Event, frames: int, quiet: set<int>)
    requires Good(v)
    ensures EventEffect(v, Handle(v, e, Silent(frames, quiet, |v.gates|)), e, frames, quiet)
  {
    var silent := Silent(frames, quiet, |v.gates|);
    assert SilentIn(frames, quiet, |v.gates|, silent);
    if e.velocity > 0 {
      NoteOnEffects(v, e.note, silent);
    } else {
      NoteOffEffects(v, e.note, silent);
    }
  }

  ghost predicate EventActs(states: seq<Voices>, events: seq<Event>, segments: seq<int>, quiet: nat -> set<int>, i: nat) {
    && i + 1 < |states| && i < |events| && i < |segments|
    && EventEffect(states[i], states[i + 1], events[i], segments[i], quiet(i))
  }

  /** The last segment of a chunk frees voices but handles no event. */
  ghost predicate LastActs(states: seq<Voices>, segments: seq<int>, quiet: nat -> set<int>, k: nat) {
    && |states| == k + 2 && |segments| == k + 1
    && exists silent ::
      SilentIn(segments[k], quiet(k), |states[k].gates|, silent) && MixdownEffect(states[k], states[k + 1], silent)
  }

  /** The segments of a chunk in which the first `k` events are due: each event comes after a segment that leads up to it.
      The last segment has the length of what is left of the chunk, or, when an event stays in the queue, of the whole
      chunk. */
  ghost predicate Cut(events: seq<Event>, segments: seq<int>, frames: int, k: nat) {
    && k <= |events| && |segments| == k + 1
    && (forall i :: 0 <= i < k ==> events[i].delta < frames) && (k < |events| ==> events[k].delta >= frames)
    && (forall i :: 0 <= i < k ==> segments[i] == events[i].delta - if i == 0 then 0 else events[i - 1].delta)
    && segments[k] == if k < |events| || k == 0 then frames else frames - events[k - 1].delta
  }

  /** The events from `k` on come nearer by the length of the chunk. */
  ghost predicate Nearer(events: seq<Event>, events': seq<Event>, frames: int, k: nat) {
    && k <= |events| && |events'| == |events| - k
    && forall i :: 0 <= i < |events'| ==>
      events'[i] == Event(events[k + i].note, events[k + i].velocity, events[k + i].delta - frames)
  }

  /** One chunk: the events that are due take effect one after the other, and the others stay. */
  ghost predicate ChunkRun(states: seq<Voices>, events: seq<Event>, events': seq<Event>, segments: seq<int>, frames: int,
                           quiet: nat -> set<int>) {
    |segments| > 0 &&
    var k := |segments| - 1;
    && Cut(events, segments, frames, k)
    && (forall i :: 0 <= i < k ==> EventActs(states, events, segments, quiet, i))
    && LastActs(states, segments, quiet, k)
    && Nearer(events, events', frames, k)
  }

  lemma CutOf(events: seq<Event>, frames: int)
    ensures Cut(events, AllSegments(events, frames), frames, DueCount(events, frames))
    ensures forall i :: 0 <= i < DueCount(events, frames) ==> AllSegments(events, frames)[i] == Segment(events, i)
  {
    var k, segments := DueCount(events, frames), AllSegments(events, frames);
    forall i | 0 <= i < k ensures segments[i] == Segment(events, i) {
      SegmentAt(events, k, i);
    }
  }

  lemma LastEffects(states: seq<Voices>, segments: seq<int>, quiet: nat -> set<int>, k: nat)
    requires |states| == k + 2 && |segments| == k + 1 && Good(states[k])
    requires states[k + 1] == Mixdown(states[k], Silent(segments[k], quiet(k), |states[k].gates|))
    ensures LastActs(states, segments, quiet, k)
  {
    var silent := Silent(segments[k], quiet(k), |states[k].gates|);
    assert SilentIn(segments[k], quiet(k), |states[k].gates|, silent);
    MixdownEffects(states[k], silent);
  }

  /** Event `k` leads from state `k` to the next one. */
  ghost predicate Link(states: seq<Voices>, events: seq<Event>, k: nat, quiet: nat -> set<int>)
    requires k < |events| && |states| == |events| + 1
  {
    && Good(states[k])
    && states[k + 1] == Handle(states[k], events[k], Silent(Segment(events, k), quiet(k), |states[k].gates|))
  }

  ghost predicate Trace(states: seq<Voices>, events: seq<Event>, quiet: nat -> set<int>) {
    |states| == |events| + 1 && forall k :: 0 <= k < |events| ==> Link(states, events, k, quiet)
  }

  /** The states between the events. */
  ghost function States(v: Voices, events: seq<Event>, quiet: nat -> set<int>): (states: seq<Voices>)
    requires Good(v)
    ensures Trace(states, events, quiet)
    ensures forall k :: 0 <= k <= |events| ==> states[k] == HandleFirst(v, events, k, quiet)
  {
    seq(|events| + 1, k requires 0 <= k <= |events| => HandleFirst(v, events, k, quiet))
  }

  /** A chunk by the states between its events. */
  lemma ChunkIs(states: seq<Voices>, events: seq<Event>, frames: int, quiet: nat -> set<int>, end: Voices)
    requires Trace(states, events, quiet)
    requires var k := DueCount(events, frames);
      Good(states[k]) && end == Mixdown(states[k], Silent(LastSegment(events, frames), quiet(k), |states[k].gates|))
    ensures ChunkRun(states[..DueCount(events, frames) + 1] + [end], events, Rest(events, frames), AllSegments(events, frames),
                     frames, quiet)
  {
    var k, segments := DueCount(events, frames), AllSegments(events, frames);
    var run := states[..k + 1] + [end];
    CutOf(events, frames);
    AllAct(states, run, events, segments, quiet, k);
    LastEffects(run, segments, quiet, k);
    RestIsNearer(events, frames);
  }

  lemma AllAct(states: seq<Voices>, run: seq<Voices>, events: seq<Event>, segments: seq<int>, quiet: nat -> set<int>, k: nat)
    requires Trace(states, events, quiet) && k <= |events| && k < |run| && k <= |segments|
    requires (forall i :: 0 <= i <= k ==> run[i] == states[i]) && forall i :: 0 <= i < k ==> segments[i] == Segment(events, i)
    ensures forall i :: 0 <= i < k ==> EventActs(run, events, segments, quiet, i)
  {
    forall i | 0 <= i < k ensures EventActs(run, events, segments, quiet, i) {
      LinkActs(states, run, events, segments, quiet, i);
    }
  }

  lemma RestIsNearer(events: seq<Event>, frames: int)
    ensures Nearer(events, Rest(events, frames), frames, DueCount(events, frames))
  {
  }

  lemma LinkActs(states: seq<Voices>, run: seq<Voices>, events: seq<Event>, segments: seq<int>, quiet: nat -> set<int>, i: nat)
    requires Trace(states, events, quiet) && i < |events| && i + 1 < |run| && i < |segments|
    requires run[i] == states[i] && run[i + 1] == states[i + 1] && segments[i] == Segment(events, i)
    ensures EventActs(run, events, segments, quiet, i)
  {
    assert Link(states, events, i, quiet);
    HandleEffects(states[i], events[i], Segment(events, i), quiet(i));
  }

  /** What each call of the host does: a note is appended to the queue, all notes off concerns the voices alone, and a
      chunk runs. */
  lemma ReactEffects(s: Synth, call: Call) returns (states: seq<Voices>, segments: seq<int>)
    requires Good(s.voices)
    ensures var s' := React(s, call);
      match call
      case Queue(e) => s' == Synth(s.voices, s.pending + [e])
      case Silence => s'.pending == s.pending && AllOffEffect(s.voices, s'.voices)
      case Chunk(frames, quiet) =>
        && ChunkRun(states, s.pending, s'.pending, segments, frames, quiet)
        && states[0] == s.voices && states[|states| - 1] == s'.voices
  {
    states, segments := [], [];
    match call {
      case Queue(_) =>
      case Silence => AllOffEffects(s.voices);
      case Chunk(frames, quiet) =>
        var k, s' := DueCount(s.pending, frames), React(s, call);
        states, segments := States(s.voices, s.pending, quiet), AllSegments(s.pending, frames);
        ChunkIs(states, s.pending, frames, quiet, s'.voices);
        states := states[..k + 1] + [s'.voices];
    }
  }
}
