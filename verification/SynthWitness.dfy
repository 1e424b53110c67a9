/** A run in which an empty block makes the plugin miss an onset. */
module SynthWitness {
  import opened Sequences
  import opened Synth
  import opened SynthAllocation
  import opened SynthGate
  import opened SynthRuns

  /** One voice; a note in a block of 64 samples; its end in a block without samples; the note again. */
  function LostOnset(): (trace: seq<Step>) {
    [SetPoly(1), Midi(NoteOn(0, 60, 100)), EndBlock(64), Midi(NoteOff(0, 60)), EndBlock(0), Midi(NoteOn(0, 60, 100))]
  }

  /** With one voice, a note that sounds sounds on voice 0. */
  lemma OnlyVoice(c: Config, s: State)
    requires Ok(c, s) && s.nvoices == 1
    ensures forall i :: i in s.used ==> i == 0
    ensures forall k :: k in s.notes ==> s.notes[k] == 0 && 0 in s.used
  {
  }

  ghost predicate OneVoice(c: Config, s: State, ears: seq<Ear>) {
    Gates(c, s, ears) && c.hasGate && s.nvoices == 1
  }

  lemma NoteOnStep(c: Config, s: State, ears: seq<Ear>)
    requires OneVoice(c, s, ears)
    ensures var s', ears' := AllocVoice(c, s, 0, 60, 100), HearAll(c, s, Midi(NoteOn(0, 60, 100)), ears);
      OneVoice(c, s', ears') && (0, 60) in s'.notes && s'.notes[(0, 60)] == 0 && 0 in s'.used
  {
    ApplyKeepsGates(c, s, ears, Midi(NoteOn(0, 60, 100)));
    var i := AllocTriggers(c, s, 0, 60, 100);
    OnlyVoice(c, AllocVoice(c, s, 0, 60, 100));
  }

  lemma BlockStep(c: Config, s: State, ears: seq<Ear>, n: nat)
    requires OneVoice(c, s, ears)
    ensures var s', ears' := Compute(c, s, n), HearAll(c, s, EndBlock(n), ears);
      && OneVoice(c, s', ears') && s'.notes == s.notes && s'.used == s.used
      && ears'[0] == Ear(if n > 0 then 0 in s.used else ears[0].heard, 0 in s.used)
  {
    ApplyKeepsGates(c, s, ears, EndBlock(n));
  }

  lemma NoteOffStep(c: Config, s: State, ears: seq<Ear>)
    requires OneVoice(c, s, ears) && (0, 60) in s.notes && ears[0].block
    ensures var s', ears' := DeallocVoice(c, s, 0, 60), HearAll(c, s, Midi(NoteOff(0, 60)), ears);
      OneVoice(c, s', ears') && ears'[0] == ears[0] && 0 !in s'.used
  {
    ApplyKeepsGates(c, s, ears, Midi(NoteOff(0, 60)));
    OnlyVoice(c, s);
    assert Gate(c, s, 0, ears[0]);
    RemoveFacts(s.used, 0);
  }

  /** Voice 0 has an open gate, and the synth has last seen it open. */
  ghost predicate Lost(s: State) {
    && (0, 60) in s.notes && s.notes[(0, 60)] == 0 && |s.voices| > 0
    && s.voices[0].gate == 1.0 && LastSeen(s.voices[0]) == 1.0
  }

  lemma LastNote(c: Config, s: State, ears: seq<Ear>)
    requires OneVoice(c, s, ears) && ears[0] == Ear(true, false)
    ensures Legal(c, s, LostOnset()[5..]) && Lost(Execute(c, s, LostOnset()[5..]))
  {
    NoteOnStep(c, s, ears);
    var s', ears' := AllocVoice(c, s, 0, 60, 100), HearAll(c, s, Midi(NoteOn(0, 60, 100)), ears);
    assert Gate(c, s', 0, ears'[0]);
    assert LostOnset()[6..] == [];
    RunCons(c, s, LostOnset(), 5, s');
  }

  lemma EmptyBlock(c: Config, s: State, ears: seq<Ear>)
    requires OneVoice(c, s, ears) && 0 !in s.used && ears[0] == Ear(true, true)
    ensures Legal(c, s, LostOnset()[4..]) && Lost(Execute(c, s, LostOnset()[4..]))
  {
    BlockStep(c, s, ears, 0);
    LastNote(c, Compute(c, s, 0), HearAll(c, s, EndBlock(0), ears));
    RunCons(c, s, LostOnset(), 4, Compute(c, s, 0));
  }

  lemma EndOfNote(c: Config, s: State, ears: seq<Ear>)
    requires OneVoice(c, s, ears) && (0, 60) in s.notes && ears[0] == Ear(true, true)
    ensures Legal(c, s, LostOnset()[3..]) && Lost(Execute(c, s, LostOnset()[3..]))
  {
    NoteOffStep(c, s, ears);
    EmptyBlock(c, DeallocVoice(c, s, 0, 60), HearAll(c, s, Midi(NoteOff(0, 60)), ears));
    RunCons(c, s, LostOnset(), 3, DeallocVoice(c, s, 0, 60));
  }

  lemma FullBlock(c: Config, s: State, ears: seq<Ear>)
    requires OneVoice(c, s, ears) && (0, 60) in s.notes && 0 in s.used
    ensures Legal(c, s, LostOnset()[2..]) && Lost(Execute(c, s, LostOnset()[2..]))
  {
    BlockStep(c, s, ears, 64);
    EndOfNote(c, Compute(c, s, 64), HearAll(c, s, EndBlock(64), ears));
    RunCons(c, s, LostOnset(), 2, Compute(c, s, 64));
  }

  lemma FirstNote(c: Config, s: State, ears: seq<Ear>)
    requires OneVoice(c, s, ears)
    ensures Legal(c, s, LostOnset()[1..]) && Lost(Execute(c, s, LostOnset()[1..]))
  {
    NoteOnStep(c, s, ears);
    FullBlock(c, AllocVoice(c, s, 0, 60, 100), HearAll(c, s, Midi(NoteOn(0, 60, 100)), ears));
    RunCons(c, s, LostOnset(), 1, AllocVoice(c, s, 0, 60, 100));
  }

  /** With any number of voices, on a fresh plugin: the last note opens a gate that the synth has last seen open, so
      that it does not hear the note begin. */
  lemma EmptyBlockLosesOnset(c: Config, freq: real, gain: real, init: seq<real>)
    requires c.Valid() && c.hasGate && |init| == |c.controls|
    ensures var s := Initial(c, freq, gain, init);
      Ok(c, s) && Legal(c, s, LostOnset()) && Lost(Execute(c, s, LostOnset()))
  {
    InitialOk(c, freq, gain, init);
    var s := Initial(c, freq, gain, init);
    ApplyKeepsGates(c, s, Deaf(c), SetPoly(1));
    FirstNote(c, SetPolyphony(c, s, 1), HearAll(c, s, SetPoly(1), Deaf(c)));
    RunCons(c, s, LostOnset(), 0, SetPolyphony(c, s, 1));
    assert LostOnset()[0..] == LostOnset();
  }
}
