/** The gate of a voice is open exactly while the voice is used, and every note starts with a rising
    gate for the synth. */
module SynthGate {
  import opened Sequences
  import opened Synth
  import opened SynthAllocation

  /** The gate value of the last sample that the dsp of the voice has computed. */
  function LastSeen(v: Voice): real {
    if v.seen == [] then 0.0 else v.seen[|v.seen| - 1]
  }

  /** What is known about one voice from the run so far: whether the gate was open in the last sample of its dsp, and
      whether it was open at the end of the last block. */
  datatype Ear = Ear(heard: bool, block: bool)

  ghost predicate Gate(c: Config, s: State, i: int, ear: Ear)
    requires Shape(c, s) && 0 <= i < c.voices
  {
    && s.voices[i].gate == (if i in s.used then 1.0 else 0.0)
    && s.lastgate[i] == (if ear.block then 1.0 else 0.0)
    && LastSeen(s.voices[i]) == (if ear.heard then 1.0 else 0.0)
  }

  ghost predicate Gates(c: Config, s: State, ears: seq<Ear>) {
    Ok(c, s) && |ears| == c.voices && (c.hasGate ==> forall i :: 0 <= i < c.voices ==> Gate(c, s, i, ears[i]))
  }

  /** The voice that a note-on triggers. */
  function Onset(s: State, ch: int, note: int): int
    requires (ch, note) in s.notes || (s.nfree > 0 && s.free != []) || s.used != []
  {
    if (ch, note) in s.notes then s.notes[(ch, note)]
    else if s.nfree > 0 && s.free != [] then s.free[0]
    else if s.used != [] then s.used[0]
    else -1
  }

  lemma OnsetExists(c: Config, s: State, ch: int, note: int)
    requires Ok(c, s)
    ensures (ch, note) in s.notes || (s.nfree > 0 && s.free != []) || s.used != []
  {
    if s.nfree <= 0 {
      SomeVoiceIsUsed(c, s);
    }
  }

  /** The end of a block is the gate of every voice, and a block with samples is heard; a note-on lets the voice
      compute a closed sample if the last block ended with an open gate. */
  function Hear(c: Config, s: State, e: Step, i: int, ear: Ear): Ear
    requires Ok(c, s)
  {
    match e
    case EndBlock(n) =>
      if i < s.nvoices then Ear(if n > 0 then i in s.used else ear.heard, i in s.used) else ear
    case Midi(NoteOn(ch, note, _)) =>
      OnsetExists(c, s, ch, note);
      if i == Onset(s, ch, note) && ear.block then ear.(heard := false) else ear
    case _ => ear
  }

  function HearAll(c: Config, s: State, e: Step, ears: seq<Ear>): (r: seq<Ear>)
    requires Ok(c, s)
    ensures |r| == |ears| && forall i :: 0 <= i < |r| ==> r[i] == Hear(c, s, e, i, ears[i])
  {
    seq(|ears|, i requires 0 <= i < |ears| => Hear(c, s, e, i, ears[i]))
  }

  lemma TriggerKeepsGates(c: Config, s: State, s': State, ears: seq<Ear>, i: int, ch: int, note: int, vel: int)
    requires Gates(c, s, ears) && IsKey((ch, note)) && Ok(c, s') && Triggers(c, s, s', i, ch, note, vel)
    ensures Gates(c, s', ears[i := if ears[i].block then ears[i].(heard := false) else ears[i]])
  {
    RemoveFacts(s.used, i);
    forall j | 0 <= j < c.voices && c.hasGate
      ensures Gate(c, s', j, if j == i && ears[i].block then ears[i].(heard := false) else ears[j])
    {
      assert Gate(c, s, j, ears[j]);
      TriggeredGate(c, s, s', i, ch, note, vel, j, ears[j]);
    }
  }

  lemma TriggeredGate(c: Config, s: State, s': State, i: int, ch: int, note: int, vel: int, j: int, ear: Ear)
    requires Shape(c, s) && Shape(c, s') && IsKey((ch, note)) && c.hasGate && 0 <= i < c.voices && 0 <= j < c.voices
    requires s'.voices == s.voices[i := Triggered(c, s, i, ch, note, vel)] && s'.lastgate == s.lastgate
    requires j in s'.used <==> j == i || j in s.used
    requires Gate(c, s, j, ear)
    ensures Gate(c, s', j, if j == i && ear.block then ear.(heard := false) else ear)
  {
  }

  lemma DropKeepsGates(c: Config, s: State, s': State, ears: seq<Ear>, i: int)
    requires Gates(c, s, ears) && Ok(c, s') && Drops(c, s, s', i)
    ensures Gates(c, s', ears)
  {
    RemoveFacts(s.used, i);
    forall j | 0 <= j < c.voices && c.hasGate ensures Gate(c, s', j, ears[j]) {
      assert Gate(c, s, j, ears[j]);
    }
  }

  lemma {:induction false} ReleaseAllKeepsGates(c: Config, s: State, ears: seq<Ear>, list: seq<int>)
    requires Gates(c, s, ears) && NoDuplicates(list) && forall i :: i in list ==> i in s.used
    ensures Gates(c, ReleaseAll(c, s, list), ears)
    decreases |list|
  {
    if list != [] {
      var i := list[0];
      assert i in list;
      var s1 := Unqueue(Release(c, s, i, s.info[i]), i);
      ReleaseOk(c, s, i);
      ReleaseDrops(c, s, i);
      DropKeepsGates(c, s, s1, ears, i);
      assert forall j :: j in list <==> j == i || j in list[1..];
      ReleaseAllKeepsGates(c, s1, ears, list[1..]);
    }
  }

  /** Transitions that change neither the used voices nor any gate. */
  ghost predicate SameGates(s: State, s': State) {
    && s'.used == s.used && s'.lastgate == s.lastgate && |s'.voices| == |s.voices|
    && forall i :: 0 <= i < |s.voices| ==> s'.voices[i].gate == s.voices[i].gate && s'.voices[i].seen == s.voices[i].seen
  }

  lemma SameGatesKeep(c: Config, s: State, s': State, ears: seq<Ear>)
    requires Gates(c, s, ears) && Ok(c, s') && SameGates(s, s')
    ensures Gates(c, s', ears)
  {
    forall j | 0 <= j < c.voices && c.hasGate ensures Gate(c, s', j, ears[j]) {
      assert Gate(c, s, j, ears[j]);
    }
  }

  lemma SameGatesTrans(s: State, s1: State, s2: State)
    requires SameGates(s, s1) && SameGates(s1, s2)
    ensures SameGates(s, s2)
  {
  }

  lemma {:induction false} UpdateChannelsSameGates(c: Config, s: State, mask: set<int>, n: nat)
    requires Shape(c, s) && n <= CHANNELS
    ensures SameGates(s, UpdateChannels(c, s, mask, n))
  {
    if n > 0 {
      UpdateChannelsSameGates(c, s, mask, n - 1);
      if n - 1 in mask {
        var s1 := UpdateChannels(c, s, mask, n - 1);
        UpdateSameGates(c, s1, n - 1);
        SameGatesTrans(s, s1, UpdateVoices(c, s1, n - 1));
      }
    }
  }

  lemma UpdateSameGates(c: Config, s: State, ch: int)
    requires Shape(c, s) && IsChannel(ch)
    ensures SameGates(s, UpdateVoices(c, s, ch))
  {
  }

  lemma ControllerSameGates(c: Config, s: State, ch: int, num: int, val: int)
    requires Ok(c, s) && IsChannel(ch) && num != 120 && num != 123
    ensures SameGates(s, Controller(c, s, ch, num, val))
  {
    if num == 6 || num == 38 || num == 96 || num == 97 {
      RpnSameGates(c, SetChannel(c, s, ch, DataEntry(s.chans[ch], num, val)), ch);
    } else if num != 121 && num != 101 && num != 100 {
      MappedSameGates(c, s, ch, num, val);
    }
  }

  lemma MappedSameGates(c: Config, s: State, ch: int, num: int, val: int)
    requires Shape(c, s) && IsChannel(ch)
    ensures SameGates(s, MappedController(c, s, ch, num, val))
  {
  }

  lemma RpnSameGates(c: Config, s: State, ch: int)
    requires Shape(c, s) && IsChannel(ch)
    ensures SameGates(s, ApplyRpn(c, s, ch))
  {
  }

  lemma AllNotesOffChannelKeepsGates(c: Config, s: State, ears: seq<Ear>, ch: int)
    requires Gates(c, s, ears) && IsChannel(ch)
    ensures Gates(c, AllNotesOffChannel(c, s, ch), ears)
  {
    ReleaseAllKeepsGates(c, s, ears, OnChannel(s.info, s.used, ch));
    AllNotesOffChannelOk(c, s, ch);
    SameGatesKeep(c, ReleaseAll(c, s, OnChannel(s.info, s.used, ch)), AllNotesOffChannel(c, s, ch), ears);
  }

  lemma NoteOnKeepsGates(c: Config, s: State, ears: seq<Ear>, ch: int, note: int, vel: int)
    requires Gates(c, s, ears) && NoteOn(ch, note, vel).Valid()
    ensures Gates(c, AllocVoice(c, s, ch, note, vel), HearAll(c, s, Midi(NoteOn(ch, note, vel)), ears))
  {
    AllocOk(c, s, ch, note, vel);
    OnsetExists(c, s, ch, note);
    var i := AllocTriggers(c, s, ch, note, vel);
    TriggerKeepsGates(c, s, AllocVoice(c, s, ch, note, vel), ears, i, ch, note, vel);
    OnsetHears(c, s, ears, i, ch, note, vel);
  }

  lemma OnsetHears(c: Config, s: State, ears: seq<Ear>, i: int, ch: int, note: int, vel: int)
    requires Ok(c, s) && 0 <= i < |ears|
    requires (ch, note) in s.notes || (s.nfree > 0 && s.free != []) || s.used != []
    requires i == Onset(s, ch, note)
    ensures HearAll(c, s, Midi(NoteOn(ch, note, vel)), ears)
         == ears[i := if ears[i].block then ears[i].(heard := false) else ears[i]]
  {
  }

  lemma NoteOffKeepsGates(c: Config, s: State, ears: seq<Ear>, ch: int, note: int)
    requires Gates(c, s, ears) && IsKey((ch, note))
    ensures Gates(c, DeallocVoice(c, s, ch, note), ears)
  {
    DeallocOk(c, s, ch, note);
    DeallocEffect(c, s, ch, note);
    var s' := DeallocVoice(c, s, ch, note);
    if Idles(s, s') {
      SameGatesKeep(c, s, s', ears);
    } else {
      DropKeepsGates(c, s, s', ears, s.notes[(ch, note)]);
    }
  }

  lemma MessageKeepsGates(c: Config, s: State, ears: seq<Ear>, m: Message)
    requires Gates(c, s, ears) && m.Valid()
    ensures Gates(c, Process(c, s, m), HearAll(c, s, Midi(m), ears))
  {
    if m.NoteOn? {
      NoteOnKeepsGates(c, s, ears, m.ch, m.note, m.vel);
    } else {
      assert HearAll(c, s, Midi(m), ears) == ears;
      OtherKeepsGates(c, s, ears, m);
    }
  }

  lemma OtherKeepsGates(c: Config, s: State, ears: seq<Ear>, m: Message)
    requires Gates(c, s, ears) && m.Valid() && !m.NoteOn?
    ensures Gates(c, Process(c, s, m), ears)
  {
    ApplyOk(c, s, Midi(m));
    var s' := Process(c, s, m);
    match m {
      case NoteOff(ch, note) => NoteOffKeepsGates(c, s, ears, ch, note);
      case ControlChange(ch, num, val) =>
        if num == 120 || num == 123 {
          AllNotesOffChannelKeepsGates(c, s, ears, ch);
        } else {
          ControllerSameGates(c, s, ch, num, val);
          SameGatesKeep(c, s, s', ears);
        }
      case Tuning(realtime, mask, tuning) =>
        if realtime {
          UpdateChannelsSameGates(c, OctaveTuning(c, s, mask, tuning, false), mask, |s.chans|);
        }
        SameGatesKeep(c, s, s', ears);
      case _ => SameGatesKeep(c, s, s', ears);
    }
  }

  lemma ComputeKeepsGates(c: Config, s: State, ears: seq<Ear>, n: nat)
    requires Gates(c, s, ears)
    ensures Gates(c, Compute(c, s, n), HearAll(c, s, EndBlock(n), ears))
  {
    var s', ears' := Compute(c, s, n), HearAll(c, s, EndBlock(n), ears);
    forall j | 0 <= j < c.voices && c.hasGate ensures Gate(c, s', j, ears'[j]) {
      assert Gate(c, s, j, ears[j]);
    }
  }

  lemma ResetKeepsGates(c: Config, s: State, s': State, ears: seq<Ear>)
    requires Gates(c, s, ears) && Ok(c, s') && s'.used == [] && s'.voices == AllOff(c, s, s.nvoices) && s'.lastgate == s.lastgate
    ensures Gates(c, s', ears)
  {
    forall j | 0 <= j < c.voices && c.hasGate ensures Gate(c, s', j, ears[j]) {
      assert Gate(c, s, j, ears[j]);
    }
  }

  /** Every transition keeps the gates right. */
  lemma ApplyKeepsGates(c: Config, s: State, ears: seq<Ear>, e: Step)
    requires Gates(c, s, ears) && StepOk(c, s, e)
    ensures Gates(c, Apply(c, s, e), HearAll(c, s, e, ears))
  {
    ApplyOk(c, s, e);
    var s' := Apply(c, s, e);
    assert !e.EndBlock? && !e.Midi? ==> HearAll(c, s, e, ears) == ears;
    match e {
      case StartBlock =>
        if s.nqueued != 0 {
          ReleaseAllKeepsGates(c, s, ears, QueuedBelow(s, s.nvoices));
        }
      case SetPoly(n) =>
        if s.nvoices != n && 0 < n <= c.voices {
          ResetKeepsGates(c, s, s', ears);
        }
      case Midi(m) => MessageKeepsGates(c, s, ears, m);
      case EndBlock(n) => ComputeKeepsGates(c, s, ears, n);
      case Deactivate => ResetKeepsGates(c, s, s', ears);
      case _ => SameGatesKeep(c, s, s', ears);
    }
  }

  /** No voice is heard with an open gate that the end of the last block did not have. */
  ghost predicate Attentive(ears: seq<Ear>) {
    forall i :: 0 <= i < |ears| ==> ears[i].heard ==> ears[i].block
  }

  lemma HearsAttentively(c: Config, s: State, e: Step, ears: seq<Ear>)
    requires Ok(c, s) && Attentive(ears) && (e.EndBlock? ==> e.samples > 0)
    ensures Attentive(HearAll(c, s, e, ears))
  {
  }

  /** An empty block is harmless exactly when every voice whose last sample had an open gate is still used. */
  lemma EmptyBlockKeepsGatesIff(c: Config, s: State, ears: seq<Ear>)
    requires Ok(c, s) && Attentive(ears) && |ears| == c.voices
    ensures Attentive(HearAll(c, s, EndBlock(0), ears)) <==>
      forall i :: 0 <= i < s.nvoices && ears[i].heard ==> i in s.used
  {
    var ears' := HearAll(c, s, EndBlock(0), ears);
    forall i | 0 <= i < s.nvoices ensures (ears'[i].heard ==> ears'[i].block) <==> (ears[i].heard ==> i in s.used) {
      assert ears'[i] == Hear(c, s, EndBlock(0), i, ears[i]);
    }
  }

  /** A note-on is a rising edge for the synth unless the gate was open in the last sample of the voice and closed at
      the end of the last block, which then was empty. */
  lemma OnsetIsRisingEdgeIff(c: Config, s: State, ears: seq<Ear>, ch: int, note: int, vel: int) returns (i: int)
    requires Gates(c, s, ears) && c.hasGate && IsKey((ch, note))
    ensures var s' := AllocVoice(c, s, ch, note, vel);
      && 0 <= i < c.voices && (ch, note) in s'.notes && s'.notes[(ch, note)] == i && s'.voices[i].gate == 1.0
      && (LastSeen(s'.voices[i]) == 0.0 <==> !(ears[i].heard && !ears[i].block))
  {
    i := AllocTriggers(c, s, ch, note, vel);
    assert Gate(c, s, i, ears[i]);
  }
}
