/** The DSSI synth: note events cut a run of samples into segments, and notes are spread over voices. */
module DssiPlugin {
  import opened Sequences

  /** A sequencer event; notes are unsigned bytes. */
  datatype Event =
    | NoteOn(tick: nat, note: nat, velocity: nat)
    | NoteOff(tick: nat, note: nat)
    | Other(tick: nat)

  /** voice_notes (-1 where a voice plays nothing), voice_free, and the gates of the voices. */
  datatype Voices = Voices(notes: seq<int>, free: seq<int>, gates: seq<bool>)

  /** A voice is on the free list, once, exactly when its note is -1 and its gate is closed. */
  ghost predicate Consistent(v: Voices) {
    && |v.gates| == |v.notes| && NoDuplicates(v.free)
    && (forall i :: i in v.free <==> 0 <= i < |v.notes| && v.notes[i] == -1)
    && (forall i :: 0 <= i < |v.notes| ==> v.notes[i] >= -1 && (v.gates[i] <==> v.notes[i] != -1))
  }

  function InitialVoices(n: nat): Voices {
    Voices(seq(n, _ => -1), seq(n, i => i), seq(n, _ => false))
  }

  lemma InitialConsistent(n: nat)
    ensures Consistent(InitialVoices(n))
  {
    var v := InitialVoices(n);
    forall i | 0 <= i < n ensures i in v.free {
      assert v.free[i] == i;
    }
  }

  // ---------------------------------------------------------------------------------------
  // Events
  // ---------------------------------------------------------------------------------------

  function Play(v: Voices, note: int): (v': Voices)
    requires Consistent(v)
  {
    if v.free == [] then v
    else
      var i := v.free[0];
      assert i in v.free;
      Voices(v.notes[i := note], v.free[1..], v.gates[i := true])
  }

  /** Stop every voice below `n` that plays the note, in order. */
  function Stop(v: Voices, note: int, n: nat): (v': Voices)
    requires |v.gates| == |v.notes| && n <= |v.notes|
    ensures |v'.gates| == |v'.notes| == |v.notes|
    ensures forall i :: n <= i < |v.notes| ==> v'.notes[i] == v.notes[i]
  {
    if n == 0 then v
    else
      var v1 := Stop(v, note, n - 1);
      if v.notes[n - 1] == note then Voices(v1.notes[n - 1 := -1], v1.free + [n - 1], v1.gates[n - 1 := false]) else v1
  }

  function Apply(v: Voices, e: Event): (v': Voices)
    requires Consistent(v)
  {
    match e
    case NoteOn(_, note, velocity) => if velocity > 0 then Play(v, note) else v
    case NoteOff(_, note) => Stop(v, note, |v.notes|)
    case Other(_) => v
  }

  /** `freed` are the voices below `n` that play the note, in increasing order. */
  ghost predicate Freed(v: Voices, note: int, n: nat, freed: seq<int>)
    requires n <= |v.notes|
  {
    && (forall k :: 0 <= k < |freed| ==> 0 <= freed[k] < n && v.notes[freed[k]] == note)
    && (forall i :: 0 <= i < n && v.notes[i] == note ==> i in freed)
    && (forall j, k :: 0 <= j < k < |freed| ==> freed[j] < freed[k])
  }

  /** What one event does to the voices.  A note-on with a velocity takes the first free voice, a note-off frees every
      voice with its note, the lower ones first, and nothing else changes a voice. */
  ghost predicate Effect(v: Voices, e: Event, v': Voices)
    requires Consistent(v)
  {
    if e.NoteOn? && e.velocity > 0 && v.free != [] then
      var i := v.free[0];
      assert i in v.free;
      v'.notes == v.notes[i := e.note] && v'.gates == v.gates[i := true] && v.free == [i] + v'.free
    else if e.NoteOff? then
      && |v'.notes| == |v'.gates| == |v.notes|
      && (forall i :: 0 <= i < |v.notes| ==>
            && v'.notes[i] == (if v.notes[i] == e.note then -1 else v.notes[i])
            && v'.gates[i] == (v.gates[i] && v.notes[i] != e.note))
      && exists freed :: Freed(v, e.note, |v.notes|, freed) && v'.free == v.free + freed
    else v' == v
  }

  lemma {:induction false} StopEffect(v: Voices, note: int, n: nat) returns (freed: seq<int>)
    requires |v.gates| == |v.notes| && n <= |v.notes|
    ensures var v' := Stop(v, note, n);
      && (forall i :: 0 <= i < |v.notes| ==>
            && v'.notes[i] == (if i < n && v.notes[i] == note then -1 else v.notes[i])
            && v'.gates[i] == (v.gates[i] && !(i < n && v.notes[i] == note)))
      && Freed(v, note, n, freed) && v'.free == v.free + freed
  {
    if n == 0 {
      freed := [];
    } else {
      freed := StopEffect(v, note, n - 1);
      if v.notes[n - 1] == note {
        freed := freed + [n - 1];
      }
    }
  }

  lemma ApplyEffect(v: Voices, e: Event)
    requires Consistent(v)
    ensures Effect(v, e, Apply(v, e))
  {
    if e.NoteOff? {
      var freed := StopEffect(v, e.note, |v.notes|);
    }
  }

  /** Two increasing lists of the same voices are the same list. */
  lemma {:induction false} FreedOnly(v: Voices, note: int, n: nat, a: seq<int>, b: seq<int>)
    requires n <= |v.notes| && Freed(v, note, n, a) && Freed(v, note, n, b)
    ensures a == b
  {
    if n == 0 {
      DistinctBound(a, 0, 0);
      DistinctBound(b, 0, 0);
    } else {
      if v.notes[n - 1] == note {
        var a' := FreedBelow(v, note, n, a);
        var b' := FreedBelow(v, note, n, b);
        FreedOnly(v, note, n - 1, a', b');
      } else {
        FreedOnly(v, note, n - 1, a, b);
      }
    }
  }

  lemma FreedBelow(v: Voices, note: int, n: nat, a: seq<int>) returns (a': seq<int>)
    requires 0 < n <= |v.notes| && Freed(v, note, n, a) && v.notes[n - 1] == note
    ensures Freed(v, note, n - 1, a') && a == a' + [n - 1]
  {
    var k :| 0 <= k < |a| && a[k] == n - 1;
    var last := |a| - 1;
    assert a[k] <= a[last] < n;
    a' := a[..last];
    forall i | 0 <= i < n - 1 && v.notes[i] == note ensures i in a' {
      assert i in a;
    }
  }

  /** The effect determines the voices. */
  lemma EffectOnly(v: Voices, e: Event, v1: Voices, v2: Voices)
    requires Consistent(v) && Effect(v, e, v1) && Effect(v, e, v2)
    ensures v1 == v2
  {
    if e.NoteOff? {
      var freed1 :| Freed(v, e.note, |v.notes|, freed1) && v1.free == v.free + freed1;
      var freed2 :| Freed(v, e.note, |v.notes|, freed2) && v2.free == v.free + freed2;
      FreedOnly(v, e.note, |v.notes|, freed1, freed2);
      assert v1.notes == v2.notes && v1.gates == v2.gates;
    } else if e.NoteOn? && e.velocity > 0 && v.free != [] {
      assert v1.free == v.free[1..] == v2.free;
    }
  }

  lemma PlayConsistent(v: Voices, note: nat)
    requires Consistent(v)
    ensures Consistent(Play(v, note))
  {
    if v.free != [] {
      var i, v' := v.free[0], Play(v, note);
      assert v.free == [i] + v'.free;
      assert i in v.free && i !in v'.free;
      assert forall j :: j in v.free <==> j == i || j in v'.free;
    }
  }

  /** A note-off stops every voice that plays the note and no other one. */
  lemma {:induction false} StopConsistent(v: Voices, note: nat, n: nat)
    requires Consistent(v) && n <= |v.notes|
    ensures Consistent(Stop(v, note, n))
    ensures forall i :: 0 <= i < n ==> Stop(v, note, n).notes[i] == if v.notes[i] == note then -1 else v.notes[i]
  {
    if n > 0 {
      StopConsistent(v, note, n - 1);
      var v1 := Stop(v, note, n - 1);
      if v.notes[n - 1] == note {
        assert n - 1 !in v1.free;
        NoDuplicatesAppend(v1.free, n - 1);
      }
    }
  }

  lemma ApplyConsistent(v: Voices, e: Event)
    requires Consistent(v)
    ensures Consistent(Apply(v, e))
  {
    match e {
      case NoteOn(_, note, _) => PlayConsistent(v, note);
      case NoteOff(_, note) => StopConsistent(v, note, |v.notes|);
      case Other(_) =>
    }
  }

  /** The voices after the first `k` events. */
  function After(v: Voices, events: seq<Event>, k: nat): (v': Voices)
    requires Consistent(v) && k <= |events|
    ensures Consistent(v')
  {
    if k == 0 then v
    else
      ApplyConsistent(After(v, events, k - 1), events[k - 1]);
      Apply(After(v, events, k - 1), events[k - 1])
  }

  /** Event `k` leads from state `k` to the next one. */
  ghost predicate Link(states: seq<Voices>, events: seq<Event>, k: nat)
    requires k < |events| && |states| == |events| + 1
  {
    Consistent(states[k]) && Effect(states[k], events[k], states[k + 1])
  }

  ghost predicate Course(states: seq<Voices>, events: seq<Event>) {
    |states| == |events| + 1 && forall k :: 0 <= k < |events| ==> Link(states, events, k)
  }

  /** The states between the events. */
  ghost function States(v: Voices, events: seq<Event>): (states: seq<Voices>)
    requires Consistent(v)
    ensures Course(states, events) && states[0] == v
    ensures forall k :: 0 <= k <= |events| ==> states[k] == After(v, events, k)
  {
    var states := seq(|events| + 1, k requires 0 <= k <= |events| => After(v, events, k));
    assert Course(states, events) by {
      forall k | 0 <= k < |events| ensures Link(states, events, k) {
        ApplyEffect(states[k], events[k]);
      }
    }
    states
  }

  // ---------------------------------------------------------------------------------------
  // Time
  // ---------------------------------------------------------------------------------------

  /** The latest tick of the first `k` events. */
  function Latest(events: seq<Event>, k: nat): (t: nat)
    requires k <= |events|
  {
    if k == 0 then 0
    else
      var t := Latest(events, k - 1);
      if t <= events[k - 1].tick then events[k - 1].tick else t
  }

  lemma {:induction false} LatestIsMaximum(events: seq<Event>, k: nat)
    requires k <= |events|
    ensures forall i :: 0 <= i < k ==> events[i].tick <= Latest(events, k)
    ensures k > 0 ==> exists i :: 0 <= i < k && events[i].tick == Latest(events, k)
  {
    if k > 0 {
      LatestIsMaximum(events, k - 1);
      assert Latest(events, k) == events[k - 1].tick || k > 1;
    }
  }

  /** How many events take effect: all up to the first one that lies beyond the run. */
  function Reached(events: seq<Event>, samples: nat): (k: nat)
    ensures k <= |events|
    ensures forall i :: 0 <= i < k ==> events[i].tick < samples
    ensures k < |events| ==> events[k].tick >= samples
  {
    ReachedFrom(events, samples, 0)
  }

  function ReachedFrom(events: seq<Event>, samples: nat, i: nat): (k: nat)
    requires i <= |events|
    ensures i <= k <= |events|
    ensures forall j :: i <= j < k ==> events[j].tick < samples
    ensures k < |events| ==> events[k].tick >= samples
    decreases |events| - i
  {
    if i == |events| || events[i].tick >= samples then i else ReachedFrom(events, samples, i + 1)
  }

  lemma {:induction false} ReachedIs(events: seq<Event>, samples: nat, k: nat)
    requires k <= |events| && (forall i :: 0 <= i < k ==> events[i].tick < samples)
    requires k == |events| || events[k].tick >= samples
    ensures Reached(events, samples) == k
  {
    var r := Reached(events, samples);
    if r < k {
      assert false;
    }
  }

  /** Between two segments, `pos` samples are computed and the first `k` events handled: either the last of the
      handled ones was due now, or the next one is. */
  ghost predicate Due(events: seq<Event>, k: nat, pos: nat)
    requires k <= |events|
  {
    && Latest(events, k) <= pos
    && (Latest(events, k) == pos || (k < |events| && events[k].tick == pos))
  }

  function Sum(s: seq<nat>): nat {
    if s == [] then 0 else Sum(s[..|s| - 1]) + s[|s| - 1]
  }

  lemma SumAppend(s: seq<nat>, x: nat)
    ensures Sum(s + [x]) == Sum(s) + x
  {
    assert (s + [x])[..|s|] == s;
  }

  class Plugin {
    var voice_notes: seq<int>
    var voice_free: seq<int>
    var gates: seq<bool>

    function Current(): Voices
      reads this
    {
      Voices(voice_notes, voice_free, gates)
    }

    constructor (polyphony: nat)
      ensures |voice_notes| == |voice_free| == |gates| == polyphony && Consistent(Current())
      ensures forall j :: 0 <= j < polyphony ==> voice_notes[j] == -1 && voice_free[j] == j && !gates[j]
    {
      voice_notes, voice_free, gates := [], [], [];
      new;
      var i := 0;
      while i < polyphony
        invariant 0 <= i <= polyphony && |voice_notes| == |voice_free| == |gates| == i
        invariant forall j :: 0 <= j < i ==> voice_notes[j] == -1 && voice_free[j] == j && !gates[j]
      {
        voice_free := voice_free + [i];
        voice_notes := voice_notes + [-1];
        gates := gates + [false];
        i := i + 1;
      }
      InitialConsistent(polyphony);
      assert Current() == InitialVoices(polyphony);
    }

    method HandleEvent(e: Event)
      requires Consistent(Current())
      modifies this
      ensures Effect(old(Current()), e, Current()) && Consistent(Current())
    {
      ghost var v := Current();
      ApplyConsistent(v, e);
      ApplyEffect(v, e);
      match e {
        case NoteOn(_, note, velocity) =>
          if velocity > 0 && voice_free != [] {
            var i := voice_free[0];
            assert i in voice_free;
            voice_free := voice_free[1..];
            voice_notes := voice_notes[i := note];
            gates := gates[i := true];
          }
        case NoteOff(_, note) =>
          for i := 0 to |voice_notes|
            invariant |voice_notes| == |v.notes| && |gates| == |v.notes|
            invariant Current() == Stop(v, note, i)
          {
            if voice_notes[i] == note {
              gates := gates[i := false];
              voice_notes := voice_notes[i := -1];
              voice_free := voice_free + [i];
            }
          }
        case Other(_) =>
      }
    }

    /** The inner loop of runImpl: handle the events that are due after `pos` samples. */
    method HandleDue(ghost states: seq<Voices>, events: seq<Event>, from: nat, pos: nat) returns (eventPos: nat)
      requires from <= |events| && Due(events, from, pos)
      requires Course(states, events) && Current() == states[from]
      modifies this
      ensures from <= eventPos <= |events| && Current() == states[eventPos]
      ensures eventPos == |events| || events[eventPos].tick > pos
      ensures Latest(events, eventPos) == pos
      ensures forall k :: from < k <= eventPos ==> Latest(events, k) == pos
    {
      eventPos := from;
      while eventPos < |events| && pos >= events[eventPos].tick
        invariant from <= eventPos <= |events| && Due(events, eventPos, pos)
        invariant Current() == states[eventPos]
        invariant forall k :: from < k <= eventPos ==> Latest(events, k) == pos
      {
        assert Link(states, events, eventPos);
        HandleEvent(events[eventPos]);
        EffectOnly(states[eventPos], events[eventPos], Current(), states[eventPos + 1]);
        eventPos := eventPos + 1;
      }
    }

    /** runImpl.  `segments` are the lengths passed to addSamples, and `times[k]` is the number of samples
        computed before event `k` was handled. */
    method RunImpl(samples: nat, events: seq<Event>) returns (segments: seq<nat>, times: seq<nat>, ghost states: seq<Voices>)
      requires Consistent(Current())
      modifies this
      ensures Consistent(Current())
      ensures Sum(segments) == samples && forall i :: 0 <= i < |segments| ==> segments[i] > 0
      ensures |times| == Reached(events, samples)
      ensures forall k :: 0 <= k < |times| ==> times[k] == Latest(events, k + 1)
      ensures |states| == |events| + 1 && states[0] == old(Current()) && states[|times|] == Current()
      ensures forall k :: 0 <= k < |events| ==> Link(states, events, k)
    {
      states := States(Current(), events);
      segments, times := [], [];
      var pos, eventPos := 0, 0;
      while pos < samples
        invariant pos <= samples && eventPos == |times| <= |events|
        invariant Current() == states[eventPos]
        invariant forall k :: 0 <= k < eventPos ==> events[k].tick < samples && times[k] == Latest(events, k + 1)
        invariant if pos < samples then Due(events, eventPos, pos)
                  else eventPos == |events| || events[eventPos].tick >= samples
        invariant Sum(segments) == pos && forall i :: 0 <= i < |segments| ==> segments[i] > 0
      {
        var next := HandleDue(states, events, eventPos, pos);
        LatestIsMaximum(events, next);
        times := times + seq(next - eventPos, _ => pos);
        eventPos := next;
        var count := if eventPos < |events| && events[eventPos].tick < samples
                     then events[eventPos].tick - pos else samples - pos;
        SumAppend(segments, count);
        segments := segments + [count];
        pos := pos + count;
      }
      ReachedIs(events, samples, eventPos);
    }
  }
}
