/** Runs of the VST synth that do not do what one expects. */
module VstWitness {
  import opened Sequences
  import opened VstVoices

  // ---------------------------------------------------------------------------------------
  // Notes on free voices
  // ---------------------------------------------------------------------------------------

  /** Without a released voice that is silent, a mixdown changes nothing. */
  lemma NothingFades(v: Voices, silent: set<int>)
    requires Ok(v) && Fading(v, silent) == {}
    ensures Mixdown(v, silent) == v
  {
    NothingGone(v.playing);
    NothingWithout(v.released);
    assert v.free + VoicesOf([]) == v.free;
  }

  /** The first `k` of `n` voices play the notes of `f` with open gates, and nothing is released. */
  ghost predicate Filled(v: Voices, n: nat, f: nat -> int, k: nat) {
    && Good(v) && |v.gates| == n && k <= n && v.released == []
    && v.free == Range(n)[k..] && |v.playing| == k
    && forall i :: 0 <= i < k ==> v.playing[i] == Node(f(i), i) && v.gates[i]
  }

  lemma FillOne(v: Voices, n: nat, f: nat -> int, k: nat, silent: set<int>)
    requires Filled(v, n, f, k) && k < n
    ensures Filled(NoteOn(v, f(k), silent), n, f, k + 1)
  {
    NoteOnOk(v, f(k), silent);
    ReserveOk(v, f(k));
    NothingFades(Reserve(v, f(k)), silent);
  }

  function Fill(f: nat -> int, k: nat): (events: seq<Event>)
    ensures |events| == k && forall i :: 0 <= i < k ==> events[i] == Event(f(i), 100, 0)
  {
    seq(k, i requires i >= 0 => Event(f(i), 100, 0))
  }

  lemma {:induction false} FillAll(n: nat, f: nat -> int, m: nat, k: nat, quiet: nat -> set<int>)
    requires 0 < n && k <= m <= n && Good(InitialVoices(n))
    ensures Filled(HandleFirst(InitialVoices(n), Fill(f, m), k, quiet), n, f, k)
  {
    if k > 0 {
      FillAll(n, f, m, k - 1, quiet);
      var v := HandleFirst(InitialVoices(n), Fill(f, m), k - 1, quiet);
      FillOne(v, n, f, k - 1, Silent(Segment(Fill(f, m), k - 1), quiet(k - 1), n));
    }
  }

  const LOUD: nat -> set<int> := _ => {}

  /** A chunk of samples in which `m` notes start. */
  lemma FillChunk(n: nat, f: nat -> int, m: nat)
    requires 0 < m <= n && Good(InitialVoices(n))
    ensures var s := Process(Synth(InitialVoices(n), Fill(f, m)), 64, LOUD);
      Filled(s.voices, n, f, m) && s.pending == []
  {
    var events := Fill(f, m);
    DueCountIs(events, 64, m);
    FillAll(n, f, m, m, LOUD);
    var v := HandleFirst(InitialVoices(n), events, m, LOUD);
    NothingFades(v, Silent(LastSegment(events, 64), LOUD(m), n));
  }

  // ---------------------------------------------------------------------------------------
  // Runs
  // ---------------------------------------------------------------------------------------

  function QueueAll(events: seq<Event>): (calls: seq<Call>)
    ensures |calls| == |events| && forall i :: 0 <= i < |calls| ==> calls[i] == Queue(events[i])
  {
    seq(|events|, i requires 0 <= i < |events| => Queue(events[i]))
  }

  lemma RunSnoc(s: Synth, calls: seq<Call>, call: Call)
    requires Good(s.voices)
    ensures Run(s, calls + [call]) == React(Run(s, calls), call)
  {
    assert (calls + [call])[..|calls|] == calls;
  }

  lemma Queued(s: Synth, events: seq<Event>, e: Event)
    requires Good(s.voices)
    ensures React(Synth(s.voices, s.pending + events), Queue(e)) == Synth(s.voices, s.pending + (events + [e]))
  {
    assert s.pending + (events + [e]) == s.pending + events + [e];
  }

  lemma {:induction false} RunQueue(s: Synth, events: seq<Event>)
    requires Good(s.voices)
    ensures Run(s, QueueAll(events)) == Synth(s.voices, s.pending + events)
    decreases |events|
  {
    if events == [] {
      assert QueueAll(events) == [] && s.pending + events == s.pending;
    } else {
      var e, rest := events[|events| - 1], events[..|events| - 1];
      assert QueueAll(events) == QueueAll(rest) + [Queue(e)] && events == rest + [e];
      RunQueue(s, rest);
      RunSnoc(s, QueueAll(rest), Queue(e));
      Queued(s, rest, e);
    }
  }

  lemma {:induction false} RunConcat(s: Synth, a: seq<Call>, b: seq<Call>)
    requires Good(s.voices)
    ensures Run(s, a + b) == Run(Run(s, a), b)
    decreases |b|
  {
    if b == [] {
      assert a + b == a;
    } else {
      var call, rest := b[|b| - 1], b[..|b| - 1];
      assert a + b == a + rest + [call] && b == rest + [call];
      RunConcat(s, a, rest);
      RunSnoc(s, a + rest, call);
      RunSnoc(Run(s, a), rest, call);
    }
  }

  /** Queue some events and ask for a chunk. */
  function OneChunk(events: seq<Event>): seq<Call> {
    QueueAll(events) + [Chunk(64, LOUD)]
  }

  lemma RunOneChunk(s: Synth, events: seq<Event>)
    requires Good(s.voices)
    ensures Run(s, OneChunk(events)) == Process(Synth(s.voices, s.pending + events), 64, LOUD)
  {
    RunQueue(s, events);
    RunSnoc(s, QueueAll(events), Chunk(64, LOUD));
  }

  /** A chunk in which some notes start leads to `v`, and the next one to `v'`. */
  lemma RunTwoChunks(s: Synth, first: seq<Event>, v: Voices, second: seq<Event>, v': Voices)
    requires Good(s.voices) && s.pending == [] && Good(v)
    requires Process(Synth(s.voices, first), 64, LOUD) == Synth(v, [])
    requires Process(Synth(v, second), 64, LOUD).voices == v'
    ensures Run(s, OneChunk(first) + OneChunk(second)).voices == v'
  {
    assert s.pending + first == first && [] + second == second;
    RunOneChunk(s, first);
    RunOneChunk(Synth(v, []), second);
    RunConcat(s, OneChunk(first), OneChunk(second));
  }

  // ---------------------------------------------------------------------------------------
  // A note that is lost
  // ---------------------------------------------------------------------------------------

  /** The note-off of voice 0 in the middle of a segment. */
  lemma ReleaseFirst(v: Voices, n: nat, f: nat -> int)
    requires 0 < n && Filled(v, n, f, n)
    ensures var v' := NoteOff(v, f(0), {});
      Good(v') && v'.playing == v.playing && v'.free == [] && 0 in v'.released && |v'.gates| == n
  {
    NoteOffOk(v, f(0), {});
    ReleaseOk(v, f(0));
    var nodes := Matching(v.playing, f(0));
    MatchingIn(v.playing, f(0));
    ReleaseFacts(v.released, nodes);
    assert v.playing[0] in nodes;
    var i :| 0 <= i < |nodes| && nodes[i] == v.playing[0];
    assert VoicesOf(nodes)[i] == 0;
    var v1 := v.(released := Release(v.released, nodes));
    NothingFades(v1, {});
  }

  /** A note-on at the same time steals that voice and loses it. */
  lemma StealReleased(v: Voices, n: nat, note: int)
    requires Good(v) && v.free == [] && |v.gates| == n && v.playing != [] && v.playing[0].voice == 0 && 0 in v.released
    requires forall nd :: nd in v.playing && nd.voice != 0 ==> nd.note != note
    ensures var v' := NoteOn(v, note, Silent(0, {}, n));
      && Good(v') && 0 in v'.free && |v'.gates| == n && v'.gates[0]
      && forall nd :: nd in v'.playing ==> nd.note != note
  {
    var silent := Silent(0, {}, n);
    NoteOnOk(v, note, silent);
    NoteOnSoundsIff(v, note, silent);
    ReserveOk(v, note);
    ReserveNodes(v, note);
    MixdownOk(Reserve(v, note), silent);
    assert Chosen(v) == 0;
    var v' := NoteOn(v, note, silent);
    forall nd | nd in v'.playing ensures nd.note != note {
      assert nd in Reserve(v, note).playing;
    }
  }

  /** For every number of voices: all voices play, one is released, and a note that comes at that moment is lost.
      Its voice ends up free with an open gate. */
  lemma StolenNoteIsLost(n: nat)
    requires n > 0
    ensures Good(InitialVoices(n))
    ensures var calls := OneChunk(Fill(i => i, n)) + OneChunk([Event(0, 0, 10), Event(n, 100, 10)]);
      var v := Run(Synth(InitialVoices(n), []), calls).voices;
      0 in v.free && |v.gates| == n && v.gates[0] && forall nd :: nd in v.playing ==> nd.note != n
  {
    InitialOk(n);
    var first, second := Fill(i => i, n), [Event(0, 0, 10), Event(n, 100, 10)];
    FillChunk(n, i => i, n);
    var v := Process(Synth(InitialVoices(n), first), 64, LOUD).voices;
    LosesNote(v, n);
    var v' := Process(Synth(v, second), 64, LOUD).voices;
    RunTwoChunks(Synth(InitialVoices(n), []), first, v, second, v');
  }

  lemma LosesNote(v: Voices, n: nat)
    requires n > 0 && Filled(v, n, i => i, n)
    ensures var v' := Process(Synth(v, [Event(0, 0, 10), Event(n, 100, 10)]), 64, LOUD).voices;
      0 in v'.free && |v'.gates| == n && v'.gates[0] && forall nd :: nd in v'.playing ==> nd.note != n
  {
    var f, events := (i: nat) => i, [Event(0, 0, 10), Event(n, 100, 10)];
    DueCountIs(events, 64, 2);
    ReleaseFirst(v, n, f);
    var v1 := NoteOff(v, 0, {});
    assert Silent(Segment(events, 0), LOUD(0), n) == {};
    assert HandleFirst(v, events, 0, LOUD) == v;
    assert HandleFirst(v, events, 1, LOUD) == v1;
    forall nd | nd in v1.playing ensures nd.note == nd.voice && nd.note < n {
      var i :| 0 <= i < |v1.playing| && v1.playing[i] == nd;
    }
    StealReleased(v1, n, n);
    var v2 := NoteOn(v1, n, Silent(0, {}, n));
    assert Segment(events, 1) == 0;
    assert HandleFirst(v, events, 2, LOUD) == v2;
    MixdownOk(v2, {});
  }

  // ---------------------------------------------------------------------------------------
  // A gate that stays open
  // ---------------------------------------------------------------------------------------

  lemma LastOfTwo(v: Voices, n: nat)
    requires n >= 2 && Filled(v, n, _ => 60, 2)
    ensures Matching(v.playing, 60) == v.playing && v.playing == [Node(60, 0), Node(60, 1)]
  {
    var one, two := [Node(60, 0)], [Node(60, 0), Node(60, 1)];
    assert v.playing == two;
    assert two[..1] == one && one[..0] == [];
    assert Matching(one, 60) == [] + one;
    assert Matching(two, 60) == one + [Node(60, 1)];
  }

  lemma ClosesOne(v: Voices, n: nat)
    requires n >= 2 && Filled(v, n, _ => 60, 2)
    ensures var v' := NoteOff(v, 60, {});
      Good(v') && |v'.gates| == n && v'.gates[0] && !v'.gates[1] && 0 in v'.released && 0 in VoicesOf(v'.playing)
  {
    LastOfTwo(v, n);
    NoteOffOk(v, 60, {});
    ReleaseOk(v, 60);
    ReleaseFacts(v.released, v.playing);
    var v1 := v.(released := Release(v.released, v.playing));
    NothingFades(v1, {});
    UnreleasedIff(v.playing, v.released);
    assert v.playing[0] in v.playing;
    assert Found(v, 60);
    assert VoicesOf(v.playing)[0] == 0;
  }

  /** For every number of voices from two on: one note-off for a note that was started twice releases both voices but
      leaves the gate of the first one open. */
  lemma OneGateStaysOpen(n: nat)
    requires n >= 2
    ensures Good(InitialVoices(n))
    ensures var v := Run(Synth(InitialVoices(n), []), OneChunk(Fill(_ => 60, 2)) + OneChunk([Event(60, 0, 10)])).voices;
      |v.gates| == n && v.gates[0] && !v.gates[1] && 0 in v.released && 0 in VoicesOf(v.playing)
  {
    InitialOk(n);
    var first, second := Fill(_ => 60, 2), [Event(60, 0, 10)];
    FillChunk(n, _ => 60, 2);
    var v := Process(Synth(InitialVoices(n), first), 64, LOUD).voices;
    LeavesOpen(v, n);
    var v' := Process(Synth(v, second), 64, LOUD).voices;
    RunTwoChunks(Synth(InitialVoices(n), []), first, v, second, v');
  }

  lemma LeavesOpen(v: Voices, n: nat)
    requires n >= 2 && Filled(v, n, _ => 60, 2)
    ensures var v' := Process(Synth(v, [Event(60, 0, 10)]), 64, LOUD).voices;
      |v'.gates| == n && v'.gates[0] && !v'.gates[1] && 0 in v'.released && 0 in VoicesOf(v'.playing)
  {
    var events := [Event(60, 0, 10)];
    DueCountIs(events, 64, 1);
    ClosesOne(v, n);
    var v1 := NoteOff(v, 60, {});
    assert Silent(Segment(events, 0), LOUD(0), n) == {};
    assert HandleFirst(v, events, 0, LOUD) == v;
    assert HandleFirst(v, events, 1, LOUD) == v1;
    NothingFades(v1, {});
  }

  /** Events at 10 and 100 in a chunk of 64 samples make it compute 74. */
  lemma ChunkComputedTwice()
    ensures Sum(AllSegments([Event(60, 100, 10), Event(62, 100, 100)], 64)) == 74
  {
    var events := [Event(60, 100, 10), Event(62, 100, 100)];
    DueCountIs(events, 64, 1);
    SegmentsSum(events, 1);
    SumAppend(Segments(events, 1), LastSegment(events, 64));
  }
}
