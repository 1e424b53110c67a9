/** Incremental updates of the control zones agree with recomputing them from the channel data. */
module SynthZones {
  import opened Sequences
  import opened Synth
  import opened SynthAllocation

  /** The frequency of a note, from all tunings of its channel. */
  ghost predicate Sounds(c: Config, freq: real, t: Channel, note: int)
    requires |t.tuning| == 12
  {
    freq == c.cps(note as real + t.coarse + t.fine + t.tuning[note % 12] + t.bend)
  }

  /** The control zones of voice `i` hold the controller values of its channel, and its frequency is the
      one of its note unless its channel has been retuned without notice. */
  ghost predicate InTune(c: Config, s: State, stale: set<int>, i: int)
    requires Shape(c, s) && 0 <= i < c.voices
  {
    var ch, note := s.info[i].0, s.info[i].1;
    var t := s.chans[ch];
    && s.voices[i].ctrl == t.midivals
    && (c.hasFreq && ch !in stale ==> Sounds(c, s.voices[i].freq, t, note))
  }

  ghost predicate Zones(c: Config, s: State, stale: set<int>) {
    && Ok(c, s)
    && (forall i :: i in s.used ==> InTune(c, s, stale, i))
    && (forall ch :: 0 <= ch < CHANNELS ==> s.chans[ch].tune == s.chans[ch].coarse + s.chans[ch].fine)
  }

  /** Does this controller end in a call of update_voices? */
  predicate Retunes(t: Channel, num: int) {
    (num == 6 || num == 38 || num == 96 || num == 97) && t.rpnMsb == 0 && (t.rpnLsb == 1 || t.rpnLsb == 2)
  }

  /** The channels whose running voices may be out of tune after a transition: only the non-real-time
      tuning message leaves them so. */
  function Stale(c: Config, s: State, stale: set<int>, e: Step): set<int>
    requires Ok(c, s) && StepOk(c, s, e)
  {
    match e
    case Midi(Tuning(realtime, mask, _)) => if realtime then stale - mask else stale + mask
    case Midi(Bend(ch, _, _)) => stale - {ch}
    case Midi(ControlChange(ch, num, _)) =>
      if num == 120 || num == 123 || Retunes(s.chans[ch], num) then stale - {ch} else stale
    case _ => stale
  }

  lemma TriggerKeepsZones(c: Config, s: State, s': State, i: int, ch: int, note: int, vel: int, stale: set<int>)
    requires Zones(c, s, stale) && IsKey((ch, note)) && Ok(c, s') && Triggers(c, s, s', i, ch, note, vel)
    ensures Zones(c, s', stale)
  {
    RemoveFacts(s.used, i);
    TriggeredSounds(c, s, i, ch, note, vel);
    forall j | j in s'.used ensures InTune(c, s', stale, j) {
      if j != i {
        assert j in s.used && InTune(c, s, stale, j);
      }
    }
  }

  lemma TriggeredSounds(c: Config, s: State, i: int, ch: int, note: int, vel: int)
    requires Shape(c, s) && 0 <= i < c.voices && IsKey((ch, note)) && s.chans[ch].tune == s.chans[ch].coarse + s.chans[ch].fine
    ensures c.hasFreq ==> Sounds(c, Triggered(c, s, i, ch, note, vel).freq, s.chans[ch], note)
  {
  }

  lemma DropKeepsZones(c: Config, s: State, s': State, i: int, stale: set<int>)
    requires Zones(c, s, stale) && Ok(c, s') && Drops(c, s, s', i)
    ensures Zones(c, s', stale)
  {
    RemoveFacts(s.used, i);
    forall j | j in s'.used ensures InTune(c, s', stale, j) {
      assert j in s.used && InTune(c, s, stale, j);
    }
  }

  lemma {:induction false} ReleaseAllKeepsZones(c: Config, s: State, list: seq<int>, stale: set<int>)
    requires Zones(c, s, stale) && NoDuplicates(list) && forall i :: i in list ==> i in s.used
    ensures Zones(c, ReleaseAll(c, s, list), stale) && ReleaseAll(c, s, list).chans == s.chans
    decreases |list|
  {
    if list != [] {
      var i := list[0];
      assert i in list;
      var s1 := Unqueue(Release(c, s, i, s.info[i]), i);
      ReleaseOk(c, s, i);
      ReleaseDrops(c, s, i);
      DropKeepsZones(c, s, s1, i, stale);
      assert forall j :: j in list <==> j == i || j in list[1..];
      ReleaseAllKeepsZones(c, s1, list[1..], stale);
    }
  }

  /** all_notes_off resets the bend of a channel on which no voice is left. */
  lemma AllNotesOffKeepsZones(c: Config, s: State, ch: int, stale: set<int>)
    requires Zones(c, s, stale) && IsChannel(ch)
    ensures Zones(c, AllNotesOffChannel(c, s, ch), stale - {ch})
  {
    var s1 := ReleaseAll(c, s, OnChannel(s.info, s.used, ch));
    ReleaseAllKeepsZones(c, s, OnChannel(s.info, s.used, ch), stale);
    ReleaseAllOk(c, s, OnChannel(s.info, s.used, ch));
    AllNotesOffChannelOk(c, s, ch);
    var s' := AllNotesOffChannel(c, s, ch);
    forall i | i in s'.used ensures InTune(c, s', stale - {ch}, i) {
      assert InTune(c, s1, stale, i);
    }
  }

  /** After update_voices the channel is in tune, whatever its tuning was before. */
  lemma UpdateKeepsZones(c: Config, s: State, t: Channel, ch: int, stale: set<int>)
    requires Zones(c, s, stale) && IsChannel(ch)
    requires |t.tuning| == 12 && t.midivals == s.chans[ch].midivals && t.tune == t.coarse + t.fine
    ensures Zones(c, UpdateVoices(c, SetChannel(c, s, ch, t), ch), stale - {ch})
  {
    var s1 := SetChannel(c, s, ch, t);
    var s' := UpdateVoices(c, s1, ch);
    SameAllocationOk(c, s, s');
    forall i | i in s'.used ensures InTune(c, s', stale - {ch}, i) {
      assert InTune(c, s, stale, i);
    }
  }

  /** Registers that the frequency does not depend on. */
  lemma RegistersKeepZones(c: Config, s: State, t: Channel, ch: int, stale: set<int>)
    requires Zones(c, s, stale) && IsChannel(ch)
    requires t.midivals == s.chans[ch].midivals && t.bend == s.chans[ch].bend && t.tuning == s.chans[ch].tuning
    requires t.coarse == s.chans[ch].coarse && t.fine == s.chans[ch].fine && t.tune == s.chans[ch].tune
    ensures Zones(c, SetChannel(c, s, ch, t), stale)
  {
    var s' := SetChannel(c, s, ch, t);
    SameAllocationOk(c, s, s');
    forall i | i in s'.used ensures InTune(c, s', stale, i) {
      assert InTune(c, s, stale, i);
    }
  }

  lemma RpnKeepsZones(c: Config, s: State, ch: int, stale: set<int>)
    requires Zones(c, s, stale) && IsChannel(ch)
    ensures var t := s.chans[ch];
      Zones(c, ApplyRpn(c, s, ch), if t.rpnMsb == 0 && (t.rpnLsb == 1 || t.rpnLsb == 2) then stale - {ch} else stale)
  {
    var t := s.chans[ch];
    if t.rpnMsb == 0 {
      if t.rpnLsb == 0 {
        RegistersKeepZones(c, s, SetBendRange(t), ch, stale);
      } else if t.rpnLsb == 1 {
        UpdateKeepsZones(c, s, SetFineTuning(t), ch, stale);
      } else if t.rpnLsb == 2 {
        UpdateKeepsZones(c, s, SetCoarseTuning(t), ch, stale);
      }
    }
  }

  lemma MappedKeepsZones(c: Config, s: State, ch: int, num: int, val: int, stale: set<int>)
    requires Zones(c, s, stale) && IsChannel(ch)
    ensures Zones(c, MappedController(c, s, ch, num, val), stale)
  {
    var s' := MappedController(c, s, ch, num, val);
    SameAllocationOk(c, s, s');
    forall i | i in s'.used ensures InTune(c, s', stale, i) {
      MappedKeepsInTune(c, s, ch, num, val, stale, i);
    }
  }

  lemma MappedKeepsInTune(c: Config, s: State, ch: int, num: int, val: int, stale: set<int>, i: int)
    requires Shape(c, s) && IsChannel(ch) && 0 <= i < c.voices && i in s.used && InTune(c, s, stale, i)
    ensures InTune(c, MappedController(c, s, ch, num, val), stale, i)
  {
  }

  lemma DataEntryKeepsZones(c: Config, s: State, ch: int, msb: int, lsb: int, stale: set<int>)
    requires Zones(c, s, stale) && IsChannel(ch)
    ensures var t := s.chans[ch];
      Zones(c, ApplyRpn(c, SetChannel(c, s, ch, t.(dataMsb := msb, dataLsb := lsb)), ch),
            if t.rpnMsb == 0 && (t.rpnLsb == 1 || t.rpnLsb == 2) then stale - {ch} else stale)
  {
    var t := s.chans[ch].(dataMsb := msb, dataLsb := lsb);
    RegistersKeepZones(c, s, t, ch, stale);
    RpnKeepsZones(c, SetChannel(c, s, ch, t), ch, stale);
  }

  lemma ControllerKeepsZones(c: Config, s: State, ch: int, num: int, val: int, stale: set<int>)
    requires Zones(c, s, stale) && IsChannel(ch)
    ensures Zones(c, Controller(c, s, ch, num, val),
      if num == 120 || num == 123 || Retunes(s.chans[ch], num) then stale - {ch} else stale)
  {
    var t := s.chans[ch];
    if num == 120 || num == 123 {
      AllNotesOffKeepsZones(c, s, ch, stale);
    } else if num == 121 {
      RegistersKeepZones(c, s, t.(dataMsb := 0, dataLsb := 0, rpnMsb := 0x7f, rpnLsb := 0x7f), ch, stale);
    } else if num == 101 {
      RegistersKeepZones(c, s, t.(rpnMsb := val), ch, stale);
    } else if num == 100 {
      RegistersKeepZones(c, s, t.(rpnLsb := val), ch, stale);
    } else if num == 6 || num == 38 || num == 96 || num == 97 {
      var t' := DataEntry(t, num, val);
      DataEntryKeepsZones(c, s, ch, t'.dataMsb, t'.dataLsb, stale);
    } else {
      MappedKeepsZones(c, s, ch, num, val, stale);
    }
  }

  /** The channels of `mask` below `n`. */
  function Below(mask: set<int>, n: nat): (r: set<int>)
    ensures forall ch :: ch in r <==> ch in mask && 0 <= ch < n
  {
    if n == 0 then {} else if n - 1 in mask then Below(mask, n - 1) + {n - 1} else Below(mask, n - 1)
  }

  lemma {:induction false} UpdateChannelsKeepsZones(c: Config, s: State, mask: set<int>, n: nat, stale: set<int>)
    requires Zones(c, s, stale) && n <= CHANNELS
    ensures Zones(c, UpdateChannels(c, s, mask, n), stale - Below(mask, n))
  {
    if n == 0 {
      assert stale - {} == stale;
    } else {
      UpdateChannelsKeepsZones(c, s, mask, n - 1, stale);
      if n - 1 in mask {
        var s1 := UpdateChannels(c, s, mask, n - 1);
        UpdateOneKeepsZones(c, s1, n - 1, stale - Below(mask, n - 1));
        assert stale - Below(mask, n) == stale - Below(mask, n - 1) - {n - 1};
      }
    }
  }

  lemma UpdateOneKeepsZones(c: Config, s: State, ch: int, stale: set<int>)
    requires Zones(c, s, stale) && IsChannel(ch)
    ensures Zones(c, UpdateVoices(c, s, ch), stale - {ch})
  {
    UpdateKeepsZones(c, s, s.chans[ch], ch, stale);
    assert SetChannel(c, s, ch, s.chans[ch]) == s;
  }

  lemma TuningKeepsZones(c: Config, s: State, mask: set<int>, tuning: seq<real>, realtime: bool, stale: set<int>)
    requires Zones(c, s, stale) && |tuning| == 12
    ensures Zones(c, OctaveTuning(c, s, mask, tuning, realtime), if realtime then stale - mask else stale + mask)
  {
    var s1 := OctaveTuning(c, s, mask, tuning, false);
    SameAllocationOk(c, s, s1);
    assert Zones(c, s1, stale + mask) by {
      forall i | i in s1.used ensures InTune(c, s1, stale + mask, i) {
        assert InTune(c, s, stale, i);
      }
    }
    if realtime {
      UpdateChannelsKeepsZones(c, s1, mask, |s1.chans|, stale + mask);
      var s' := OctaveTuning(c, s, mask, tuning, true);
      var stale' := stale + mask - Below(mask, CHANNELS);
      forall i | i in s'.used ensures InTune(c, s', stale - mask, i) {
        assert InTune(c, s', stale', i);
        assert IsKey(s'.info[i]);
      }
    }
  }

  lemma PortKeepsZones(c: Config, s: State, j: int, x: real, stale: set<int>)
    requires Zones(c, s, stale) && 0 <= j < |c.controls|
    ensures Zones(c, SetPort(c, s, j, x), stale)
  {
    var s' := SetPort(c, s, j, x);
    SameAllocationOk(c, s, s');
    forall i | i in s'.used ensures InTune(c, s', stale, i) {
      PortKeepsInTune(c, s, j, x, stale, i);
    }
    forall ch | 0 <= ch < CHANNELS ensures s'.chans[ch].tune == s'.chans[ch].coarse + s'.chans[ch].fine {
      assert s.chans[ch].tune == s.chans[ch].coarse + s.chans[ch].fine;
    }
  }

  lemma PortKeepsInTune(c: Config, s: State, j: int, x: real, stale: set<int>, i: int)
    requires Shape(c, s) && 0 <= j < |c.controls| && 0 <= i < c.voices && i in s.used && InTune(c, s, stale, i)
    ensures InTune(c, SetPort(c, s, j, x), stale, i)
  {
    if x != s.ports[j] {
      var ch := s.info[i].0;
      assert SetPort(c, s, j, x).chans[ch] == s.chans[ch].(midivals := s.chans[ch].midivals[j := x]);
    }
  }

  lemma IdleKeepsZones(c: Config, s: State, s': State, stale: set<int>)
    requires Zones(c, s, stale) && Ok(c, s') && Idles(s, s')
    ensures Zones(c, s', stale)
  {
    forall i | i in s'.used ensures InTune(c, s', stale, i) {
      assert InTune(c, s, stale, i);
    }
  }

  lemma NoteOffKeepsZones(c: Config, s: State, ch: int, note: int, stale: set<int>)
    requires Zones(c, s, stale) && IsKey((ch, note)) && Ok(c, DeallocVoice(c, s, ch, note))
    ensures Zones(c, DeallocVoice(c, s, ch, note), stale)
  {
    DeallocEffect(c, s, ch, note);
    var s' := DeallocVoice(c, s, ch, note);
    if Idles(s, s') {
      IdleKeepsZones(c, s, s', stale);
    } else {
      DropKeepsZones(c, s, s', s.notes[(ch, note)], stale);
    }
  }

  lemma BendKeepsZones(c: Config, s: State, ch: int, lsb: int, msb: int, stale: set<int>)
    requires Zones(c, s, stale) && IsChannel(ch)
    ensures Zones(c, PitchBend(c, s, ch, lsb, msb), stale - {ch})
  {
    UpdateKeepsZones(c, s, SetBend(s.chans[ch], lsb + msb * 128), ch, stale);
  }

  lemma MessageKeepsZones(c: Config, s: State, m: Message, stale: set<int>)
    requires Zones(c, s, stale) && m.Valid()
    ensures Zones(c, Process(c, s, m), Stale(c, s, stale, Midi(m)))
  {
    ApplyOk(c, s, Midi(m));
    match m {
      case NoteOn(ch, note, vel) =>
        var i := AllocTriggers(c, s, ch, note, vel);
        TriggerKeepsZones(c, s, AllocVoice(c, s, ch, note, vel), i, ch, note, vel, stale);
      case NoteOff(ch, note) =>
        NoteOffKeepsZones(c, s, ch, note, stale);
      case Bend(ch, lsb, msb) =>
        BendKeepsZones(c, s, ch, lsb, msb, stale);
      case ControlChange(ch, num, val) => ControllerKeepsZones(c, s, ch, num, val, stale);
      case Tuning(realtime, mask, tuning) => TuningKeepsZones(c, s, mask, tuning, realtime, stale);
      case Ignored =>
    }
  }

  /** Every transition keeps the zones of the running voices up to date. */
  lemma ApplyKeepsZones(c: Config, s: State, e: Step, stale: set<int>)
    requires Zones(c, s, stale) && StepOk(c, s, e)
    ensures Zones(c, Apply(c, s, e), Stale(c, s, stale, e))
  {
    ApplyOk(c, s, e);
    match e {
      case StartBlock =>
        if s.nqueued != 0 {
          ReleaseAllKeepsZones(c, s, QueuedBelow(s, s.nvoices), stale);
        }
      case Midi(m) => MessageKeepsZones(c, s, m, stale);
      case SetControl(j, x) => PortKeepsZones(c, s, j, x, stale);
      case EndBlock(n) =>
        var s' := Compute(c, s, n);
        forall i | i in s'.used ensures InTune(c, s', stale, i) {
          assert InTune(c, s, stale, i);
        }
      case Activate =>
        var s' := s.(active := true);
        forall i | i in s'.used ensures InTune(c, s', stale, i) {
          assert InTune(c, s, stale, i);
        }
      case _ =>
    }
  }
}
