/** What the MIDI bytes mean for channels, tunings and sounding voices. */
module SynthMessages {
  import opened Sequences
  import opened Synth
  import opened SynthAllocation
  import opened SynthEffects
  import opened SynthZones
  import opened SynthRuns
  import Distribution

  // ---------------------------------------------------------------------------------------
  // Pitch bend and tuning
  // ---------------------------------------------------------------------------------------

  /** Voice `v` on a channel with data `t`, retuned to the note. */
  ghost predicate TunedVoice(c: Config, v: Voice, v': Voice, t: Channel, note: int)
    requires |t.tuning| == 12
  {
    v' == v.(freq := c.cps(note as real + t.tune + t.tuning[note % 12] + t.bend))
  }

  /** Channel `ch` has the data `t` and its used voices sound accordingly; nothing else changes. */
  ghost predicate Retuned(c: Config, s: State, s': State, ch: int, t: Channel)
    requires Shape(c, s) && IsChannel(ch) && |t.tuning| == 12
  {
    && s' == s.(chans := s.chans[ch := t], voices := s'.voices) && |s'.voices| == c.voices
    && forall i :: 0 <= i < c.voices ==>
      if i in s.used && s.info[i].0 == ch && c.hasFreq
      then TunedVoice(c, s.voices[i], s'.voices[i], t, s.info[i].1) else s'.voices[i] == s.voices[i]
  }

  lemma UpdateRetunes(c: Config, s: State, ch: int, t: Channel)
    requires Shape(c, s) && IsChannel(ch) && |t.midivals| == |c.controls| && |t.tuning| == 12
    ensures Retuned(c, s, UpdateVoices(c, SetChannel(c, s, ch, t), ch), ch, t)
  {
    var s' := UpdateVoices(c, SetChannel(c, s, ch, t), ch);
    forall i | 0 <= i < c.voices
      ensures if i in s.used && s.info[i].0 == ch && c.hasFreq
              then TunedVoice(c, s.voices[i], s'.voices[i], t, s.info[i].1) else s'.voices[i] == s.voices[i]
    {
      FrequencyTunes(c, s.voices[i], t, s.info[i].1);
    }
  }

  lemma FrequencyTunes(c: Config, v: Voice, t: Channel, note: int)
    requires |t.tuning| == 12
    ensures TunedVoice(c, v, v.(freq := Frequency(c, t, note)), t, note)
  {
  }

  /** Retuning twice is retuning once. */
  lemma RetunedTwice(c: Config, s: State, s1: State, s2: State, ch: int, t1: Channel, t2: Channel)
    requires Shape(c, s) && Shape(c, s1) && IsChannel(ch) && |t1.tuning| == |t2.tuning| == 12
    requires Retuned(c, s, s1, ch, t1) && Retuned(c, s1, s2, ch, t2)
    ensures Retuned(c, s, s2, ch, t2)
  {
    forall i | 0 <= i < c.voices
      ensures if i in s.used && s.info[i].0 == ch && c.hasFreq
              then TunedVoice(c, s.voices[i], s2.voices[i], t2, s.info[i].1) else s2.voices[i] == s.voices[i]
    {
      if i in s.used && s.info[i].0 == ch && c.hasFreq {
        assert TunedVoice(c, s.voices[i], s1.voices[i], t1, s.info[i].1);
        assert TunedVoice(c, s1.voices[i], s2.voices[i], t2, s.info[i].1);
      }
    }
  }

  /** The sounding frequencies after a retuning. */
  lemma RetunedSounds(c: Config, s: State, s': State, ch: int, t: Channel, i: int)
    requires Ok(c, s) && IsChannel(ch) && |t.tuning| == 12 && t.tune == t.coarse + t.fine
    requires Retuned(c, s, s', ch, t) && i in s.used && s.info[i].0 == ch && c.hasFreq
    ensures var note := s.info[i].1;
      s'.voices[i].freq == c.cps(note as real + t.coarse + t.fine + t.tuning[note % 12] + t.bend)
  {
    assert TunedVoice(c, s.voices[i], s'.voices[i], t, s.info[i].1);
  }

  /** The bend that a 14-bit value stands for, in units of the bend range. */
  ghost predicate BendOf(lsb: int, msb: int, range: real, bend: real) {
    bend == (lsb + 128 * msb - 8192) as real / 8192.0 * range
  }

  lemma BendValue(t: Channel, lsb: int, msb: int)
    ensures SetBend(t, lsb + msb * 128) == t.(bend := SetBend(t, lsb + msb * 128).bend)
    ensures BendOf(lsb, msb, t.range, SetBend(t, lsb + msb * 128).bend)
  {
    assert lsb + msb * 128 - 0x2000 == lsb + 128 * msb - 8192;
  }

  /** A pitch bend message bends the channel by its 14-bit value. */
  lemma BendEffect(c: Config, s: State, s': State, ch: int, lsb: int, msb: int) returns (bend: real)
    requires IsChannel(ch) && Ok(c, s) && s' == PitchBend(c, s, ch, lsb, msb)
    ensures BendOf(lsb, msb, s.chans[ch].range, bend) && Retuned(c, s, s', ch, s.chans[ch].(bend := bend))
  {
    var t := SetBend(s.chans[ch], lsb + msb * 128);
    BendValue(s.chans[ch], lsb, msb);
    UpdateRetunes(c, s, ch, t);
    bend := t.bend;
  }

  /** So every used voice of the channel sounds bent. */
  lemma BentFrequency(c: Config, s: State, s': State, ch: int, lsb: int, msb: int, i: int) returns (bend: real)
    requires IsChannel(ch) && Ok(c, s) && s.chans[ch].tune == s.chans[ch].coarse + s.chans[ch].fine
    requires s' == PitchBend(c, s, ch, lsb, msb) && i in s.used && s.info[i].0 == ch && c.hasFreq
    ensures var t, note := s.chans[ch], s.info[i].1;
      && BendOf(lsb, msb, t.range, bend)
      && s'.voices[i].freq == c.cps(note as real + t.coarse + t.fine + t.tuning[note % 12] + bend)
  {
    bend := BendEffect(c, s, s', ch, lsb, msb);
    RetunedSounds(c, s, s', ch, s.chans[ch].(bend := bend), i);
  }

  // ---------------------------------------------------------------------------------------
  // Controllers
  // ---------------------------------------------------------------------------------------

  /** A data register one step up or down, within seven bits. */
  function Nudged(x: int, up: bool): int {
    if up then (if x < 127 then x + 1 else x) else if x > 0 then x - 1 else x
  }

  /** The data registers after controllers 6 and 38, which set them, and 96 and 97, which step the upper one for coarse
      tuning and the lower one otherwise. */
  ghost predicate Entered(t: Channel, num: int, val: int, msb: int, lsb: int) {
    var coarse := t.rpnMsb == 0 && t.rpnLsb == 2;
    && msb == (if num == 6 then val else if num != 38 && coarse then Nudged(t.dataMsb, num == 96) else t.dataMsb)
    && lsb == (if num == 38 then val else if num != 6 && !coarse then Nudged(t.dataLsb, num == 96) else t.dataLsb)
  }

  /** The channel once its data registers hold these values: they set the bend range, the fine tuning or the coarse
      tuning, whichever parameter is selected. */
  ghost function DataSet(t: Channel, msb: int, lsb: int): (t': Channel)
    ensures t'.midivals == t.midivals && t'.tuning == t.tuning && t'.rpnMsb == t.rpnMsb && t'.rpnLsb == t.rpnLsb
    ensures t'.dataMsb == msb && t'.dataLsb == lsb
  {
    var t', fine, coarse := t.(dataMsb := msb, dataLsb := lsb), (128 * msb + lsb - 8192) as real / 8192.0, (msb - 64) as real;
    if t.rpnMsb != 0 then t'
    else if t.rpnLsb == 0 then t'.(range := msb as real + lsb as real / 100.0)
    else if t.rpnLsb == 1 then t'.(fine := fine, tune := t.coarse + fine)
    else if t.rpnLsb == 2 then t'.(coarse := coarse, tune := coarse + t.fine)
    else t'
  }

  /** Fine and coarse tuning retune the channel at once. */
  ghost predicate DataEffect(c: Config, s: State, s': State, ch: int, msb: int, lsb: int)
    requires Shape(c, s) && IsChannel(ch)
  {
    var t, t' := s.chans[ch], DataSet(s.chans[ch], msb, lsb);
    if t.rpnMsb == 0 && (t.rpnLsb == 1 || t.rpnLsb == 2) then Retuned(c, s, s', ch, t') else s' == s.(chans := s.chans[ch := t'])
  }

  lemma SetTwice(c: Config, s: State, ch: int, t1: Channel, t2: Channel)
    requires Shape(c, s) && IsChannel(ch) && |t1.midivals| == |t2.midivals| == |c.controls| && |t1.tuning| == |t2.tuning| == 12
    ensures SetChannel(c, SetChannel(c, s, ch, t1), ch, t2) == SetChannel(c, s, ch, t2)
  {
    assert s.chans[ch := t1][ch := t2] == s.chans[ch := t2];
  }

  lemma DataValues(t: Channel, msb: int, lsb: int)
    requires t.rpnMsb == 0
    ensures var t' := t.(dataMsb := msb, dataLsb := lsb);
      && (t.rpnLsb == 0 ==> SetBendRange(t') == DataSet(t, msb, lsb))
      && (t.rpnLsb == 1 ==> SetFineTuning(t') == DataSet(t, msb, lsb))
      && (t.rpnLsb == 2 ==> SetCoarseTuning(t') == DataSet(t, msb, lsb))
  {
    assert msb * 128 + lsb - 8192 == 128 * msb + lsb - 8192;
  }

  lemma ApplyRpnEffect(c: Config, s: State, ch: int, msb: int, lsb: int)
    requires Shape(c, s) && IsChannel(ch)
    ensures DataEffect(c, s, ApplyRpn(c, SetChannel(c, s, ch, s.chans[ch].(dataMsb := msb, dataLsb := lsb)), ch), ch, msb, lsb)
  {
    var t, t1 := s.chans[ch].(dataMsb := msb, dataLsb := lsb), DataSet(s.chans[ch], msb, lsb);
    if t.rpnMsb == 0 {
      DataValues(s.chans[ch], msb, lsb);
      if t.rpnLsb == 0 {
        SetTwice(c, s, ch, t, t1);
      } else if t.rpnLsb == 1 || t.rpnLsb == 2 {
        SetTwice(c, s, ch, t, t1);
        UpdateRetunes(c, s, ch, t1);
      }
    }
  }

  /** The value of a control: a button is on from 64 on, and other controls go from their minimum to their maximum. */
  ghost predicate Scaled(el: Control, val: int, x: real) {
    if el.isButton then x == (if val >= 64 then 1.0 else 0.0)
    else if val == 127 then x == el.max
    else x == el.min + (el.max - el.min) * val as real / 128.0
  }

  /** A mapped controller sets its control of the channel and of the used voices of the channel. */
  ghost predicate MappedEffect(c: Config, s: State, s': State, ch: int, num: int, val: int)
    requires Shape(c, s) && IsChannel(ch) && num in c.ctrlmap
  {
    var j, t := c.ctrlmap[num], s.chans[ch];
    && |s'.chans| == CHANNELS
    && s' == s.(chans := s.chans[ch := s'.chans[ch]], voices := s'.voices) && |s'.voices| == c.voices
    && exists x ::
      && Scaled(c.controls[j], val, x)
      && s'.chans[ch] == t.(midivals := t.midivals[j := x])
      && forall i :: 0 <= i < c.voices ==>
        s'.voices[i] == if i in s.used && s.info[i].0 == ch then s.voices[i].(ctrl := s.voices[i].ctrl[j := x]) else s.voices[i]
  }

  lemma MappedEffects(c: Config, s: State, ch: int, num: int, val: int)
    requires Shape(c, s) && IsChannel(ch) && num in c.ctrlmap
    ensures MappedEffect(c, s, MappedController(c, s, ch, num, val), ch, num, val)
  {
    assert Scaled(c.controls[c.ctrlmap[num]], val, ControlValue(c.controls[c.ctrlmap[num]], val));
  }

  /** A controller message. */
  ghost predicate ControllerEffect(c: Config, s: State, s': State, ch: int, num: int, val: int)
    requires Ok(c, s) && IsChannel(ch)
  {
    var t := s.chans[ch];
    if num == 120 || num == 123 then ChannelOffEffect(c, s, s', ch)
    else if num == 121 then
      s' == s.(chans := s.chans[ch := t.(dataMsb := 0, dataLsb := 0, rpnMsb := 127, rpnLsb := 127)])
    else if num == 101 then s' == s.(chans := s.chans[ch := t.(rpnMsb := val)])
    else if num == 100 then s' == s.(chans := s.chans[ch := t.(rpnLsb := val)])
    else if num == 6 || num == 38 || num == 96 || num == 97 then
      exists msb, lsb :: Entered(t, num, val, msb, lsb) && DataEffect(c, s, s', ch, msb, lsb)
    else if num in c.ctrlmap then MappedEffect(c, s, s', ch, num, val)
    else s' == s
  }

  lemma EntryEffects(c: Config, s: State, ch: int, num: int, val: int)
    requires Ok(c, s) && IsChannel(ch) && (num == 6 || num == 38 || num == 96 || num == 97)
    ensures ControllerEffect(c, s, Controller(c, s, ch, num, val), ch, num, val)
  {
    var t := DataEntry(s.chans[ch], num, val);
    ApplyRpnEffect(c, s, ch, t.dataMsb, t.dataLsb);
    assert Entered(s.chans[ch], num, val, t.dataMsb, t.dataLsb);
  }

  lemma ControllerEffects(c: Config, s: State, ch: int, num: int, val: int)
    requires Ok(c, s) && IsChannel(ch)
    ensures ControllerEffect(c, s, Controller(c, s, ch, num, val), ch, num, val)
  {
    if num == 120 || num == 123 {
      ChannelOffEffects(c, s, ch);
    } else if num == 6 || num == 38 || num == 96 || num == 97 {
      EntryEffects(c, s, ch, num, val);
    } else if num != 121 && num != 101 && num != 100 && num in c.ctrlmap {
      MappedEffects(c, s, ch, num, val);
    }
  }

  lemma ControlBytes(ch: int, num: int, val: int)
    requires IsChannel(ch) && 0 <= num < 128 && 0 <= val < 128
    ensures WellFormed([0xb0 + ch, num, val]) && Decode([0xb0 + ch, num, val]) == Synth.ControlChange(ch, num, val)
  {
    DecodeEncode(Synth.ControlChange(ch, num, val));
  }

  /** The three bytes of a controller message lead from `s` to `s'`. */
  ghost predicate Sends(c: Config, s: State, ch: int, num: int, val: int, s': State) {
    && Ok(c, s) && IsChannel(ch) && WellFormed([0xb0 + ch, num, val])
    && s' == Process(c, s, Decode([0xb0 + ch, num, val]))
  }

  lemma SendsEffect(c: Config, s: State, ch: int, num: int, val: int, s': State)
    requires 0 <= num < 128 && 0 <= val < 128 && Sends(c, s, ch, num, val, s')
    ensures ControllerEffect(c, s, s', ch, num, val)
  {
    ControlBytes(ch, num, val);
    ControllerEffects(c, s, ch, num, val);
  }

  /** A channel after selecting a parameter and entering its two data bytes. */
  ghost function Parameter(t: Channel, rpnMsb: int, rpnLsb: int, msb: int, lsb: int): (t': Channel)
    ensures t'.midivals == t.midivals && t'.tuning == t.tuning
  {
    var t' := t.(rpnMsb := rpnMsb, rpnLsb := rpnLsb, dataMsb := msb, dataLsb := lsb);
    var fine, coarse := (128 * msb + lsb - 8192) as real / 8192.0, (msb - 64) as real;
    match (rpnMsb, rpnLsb)
    case (0, 0) => t'.(range := msb as real + lsb as real / 100.0)
    case (0, 1) => t'.(fine := fine, tune := t.coarse + fine)
    case (0, 2) => t'.(coarse := coarse, tune := coarse + t.fine)
    case _ => t'
  }

  ghost predicate ParameterSet(c: Config, s: State, s': State, ch: int, rpnMsb: int, rpnLsb: int, msb: int, lsb: int)
    requires Shape(c, s) && IsChannel(ch)
  {
    var t' := Parameter(s.chans[ch], rpnMsb, rpnLsb, msb, lsb);
    if rpnMsb == 0 && (rpnLsb == 1 || rpnLsb == 2) then Retuned(c, s, s', ch, t') else s' == s.(chans := s.chans[ch := t'])
  }

  lemma ParameterIs(t: Channel, p: int, r: int, m: int, l: int)
    ensures Parameter(t, p, r, m, l) == DataSet(t.(rpnMsb := p, rpnLsb := r), m, l)
  {
  }

  lemma Selected(c: Config, s0: State, s1: State, s2: State, ch: int, p: int, r: int)
    requires Ok(c, s0) && Ok(c, s1) && IsChannel(ch)
    requires ControllerEffect(c, s0, s1, ch, 101, p) && ControllerEffect(c, s1, s2, ch, 100, r)
    ensures s2 == s0.(chans := s0.chans[ch := s0.chans[ch].(rpnMsb := p, rpnLsb := r)])
  {
    var t := s0.chans[ch].(rpnMsb := p);
    assert s0.chans[ch := t][ch := t.(rpnLsb := r)] == s0.chans[ch := t.(rpnLsb := r)];
  }

  lemma MsbEntered(c: Config, s: State, s': State, ch: int, m: int)
    requires Ok(c, s) && IsChannel(ch) && ControllerEffect(c, s, s', ch, 6, m)
    ensures DataEffect(c, s, s', ch, m, s.chans[ch].dataLsb)
  {
  }

  lemma LsbEntered(c: Config, s: State, s': State, ch: int, l: int)
    requires Ok(c, s) && IsChannel(ch) && ControllerEffect(c, s, s', ch, 38, l)
    ensures DataEffect(c, s, s', ch, s.chans[ch].dataMsb, l)
  {
  }

  lemma DataSetTwice(t: Channel, m: int, l1: int, l: int)
    ensures DataSet(DataSet(t, m, l1), m, l) == DataSet(t, m, l)
  {
  }

  lemma DataTwice(c: Config, s0: State, s1: State, s2: State, ch: int, m: int, l1: int, l: int)
    requires Ok(c, s0) && Ok(c, s1) && IsChannel(ch)
    requires DataEffect(c, s0, s1, ch, m, l1) && DataEffect(c, s1, s2, ch, m, l)
    ensures DataEffect(c, s0, s2, ch, m, l)
  {
    var t := s0.chans[ch];
    var t1 := DataSet(t, m, l1);
    DataSetTwice(t, m, l1, l);
    assert s1.chans[ch] == t1;
    if t.rpnMsb == 0 && (t.rpnLsb == 1 || t.rpnLsb == 2) {
      RetunedTwice(c, s0, s1, s2, ch, t1, DataSet(t1, m, l));
    } else {
      assert s0.chans[ch := t1][ch := DataSet(t1, m, l)] == s0.chans[ch := DataSet(t1, m, l)];
    }
  }

  /** The retuning of a channel whose parameter was selected just before. */
  lemma SelectedData(c: Config, s0: State, s2: State, s4: State, ch: int, p: int, r: int, m: int, l: int)
    requires Ok(c, s0) && Ok(c, s2) && IsChannel(ch) && 0 <= r
    requires s2 == s0.(chans := s0.chans[ch := s0.chans[ch].(rpnMsb := p, rpnLsb := r)]) && DataEffect(c, s2, s4, ch, m, l)
    ensures ParameterSet(c, s0, s4, ch, p, r, m, l)
  {
    var t := s0.chans[ch].(rpnMsb := p, rpnLsb := r);
    ParameterIs(s0.chans[ch], p, r, m, l);
    assert s0.chans[ch := t][ch := DataSet(t, m, l)] == s0.chans[ch := DataSet(t, m, l)];
  }

  /** Controllers 101, 100, 6 and 38 in this order: parameter 0 of bank 0 is the bend range in semitones and cents, 1 the
      fine tuning as a 14-bit value from -1 to +1, and 2 the coarse tuning around 64; any other parameter, and any other
      bank, changes nothing but the registers. */
  lemma ParameterBytes(c: Config, s0: State, s1: State, s2: State, s3: State, s4: State, ch: int, p: int, r: int, m: int, l: int)
    requires 0 <= p < 128 && 0 <= r < 128 && 0 <= m < 128 && 0 <= l < 128
    requires Sends(c, s0, ch, 101, p, s1) && Sends(c, s1, ch, 100, r, s2)
    requires Sends(c, s2, ch, 6, m, s3) && Sends(c, s3, ch, 38, l, s4)
    ensures ParameterSet(c, s0, s4, ch, p, r, m, l)
  {
    SendsEffect(c, s0, ch, 101, p, s1);
    SendsEffect(c, s1, ch, 100, r, s2);
    SendsEffect(c, s2, ch, 6, m, s3);
    SendsEffect(c, s3, ch, 38, l, s4);
    ParameterEffects(c, s0, s1, s2, s3, s4, ch, p, r, m, l);
  }

  lemma ParameterEffects(c: Config, s0: State, s1: State, s2: State, s3: State, s4: State, ch: int, p: int, r: int, m: int, l: int)
    requires Ok(c, s0) && Ok(c, s1) && Ok(c, s2) && Ok(c, s3) && IsChannel(ch) && 0 <= r
    requires ControllerEffect(c, s0, s1, ch, 101, p) && ControllerEffect(c, s1, s2, ch, 100, r)
    requires ControllerEffect(c, s2, s3, ch, 6, m) && ControllerEffect(c, s3, s4, ch, 38, l)
    ensures ParameterSet(c, s0, s4, ch, p, r, m, l)
  {
    Selected(c, s0, s1, s2, ch, p, r);
    MsbEntered(c, s2, s3, ch, m);
    LsbEntered(c, s3, s4, ch, l);
    DataTwice(c, s2, s3, s4, ch, m, s2.chans[ch].dataLsb, l);
    SelectedData(c, s0, s2, s4, ch, p, r, m, l);
  }

  /** Controllers 96 and 97 step one data register of the selected parameter. */
  lemma StepBytes(c: Config, s: State, s': State, ch: int, up: bool, val: int) returns (msb: int, lsb: int)
    requires 0 <= val < 128 && Sends(c, s, ch, if up then 96 else 97, val, s')
    ensures DataEffect(c, s, s', ch, msb, lsb)
    ensures var t := s.chans[ch];
      if t.rpnMsb == 0 && t.rpnLsb == 2 then msb == Nudged(t.dataMsb, up) && lsb == t.dataLsb
      else msb == t.dataMsb && lsb == Nudged(t.dataLsb, up)
  {
    var num := if up then 96 else 97;
    SendsEffect(c, s, ch, num, val, s');
    msb, lsb :| Entered(s.chans[ch], num, val, msb, lsb) && DataEffect(c, s, s', ch, msb, lsb);
  }

  /** Controller 121 deselects the parameter, so that data bytes after it tune nothing. */
  lemma DeselectBytes(c: Config, s0: State, s1: State, s2: State, ch: int, x: int, num: int, val: int)
    requires 0 <= x < 128 && 0 <= val < 128 && num in {6, 38, 96, 97}
    requires Sends(c, s0, ch, 121, x, s1) && Sends(c, s1, ch, num, val, s2)
    ensures s2 == s0.(chans := s2.chans) && |s2.chans| == CHANNELS
    ensures forall k :: 0 <= k < CHANNELS && k != ch ==> s2.chans[k] == s0.chans[k]
    ensures s2.chans[ch]
         == s0.chans[ch].(rpnMsb := 127, rpnLsb := 127, dataMsb := s2.chans[ch].dataMsb, dataLsb := s2.chans[ch].dataLsb)
  {
    SendsEffect(c, s0, ch, 121, x, s1);
    SendsEffect(c, s1, ch, num, val, s2);
    assert s1.chans[ch].rpnMsb == 127;
  }

  /** A controller of the map sets its control; the controllers that mean something else never do, and others change
      nothing. */
  lemma MappedBytes(c: Config, s: State, s': State, ch: int, num: int, val: int)
    requires 0 <= num < 128 && 0 <= val < 128 && Sends(c, s, ch, num, val, s')
    requires num !in {6, 38, 96, 97, 100, 101, 120, 121, 123}
    ensures if num in c.ctrlmap then MappedEffect(c, s, s', ch, num, val) else s' == s
  {
    SendsEffect(c, s, ch, num, val, s');
  }

  // ---------------------------------------------------------------------------------------
  // Octave tuning
  // ---------------------------------------------------------------------------------------

  /** The channels of the mask get the twelve notes; in the real-time form their used voices sound accordingly. */
  ghost predicate TuningEffect(c: Config, s: State, s': State, realtime: bool, mask: set<int>, tuning: seq<real>)
    requires Ok(c, s) && |tuning| == 12
  {
    && |s'.chans| == CHANNELS && |s'.voices| == c.voices && s' == s.(chans := s'.chans, voices := s'.voices)
    && (forall ch :: 0 <= ch < CHANNELS ==>
          s'.chans[ch] == if ch in mask then s.chans[ch].(tuning := tuning) else s.chans[ch])
    && (forall i :: 0 <= i < c.voices ==>
          if i in s.used && s.info[i].0 in mask && realtime && c.hasFreq
          then TunedVoice(c, s.voices[i], s'.voices[i], s.chans[s.info[i].0].(tuning := tuning), s.info[i].1)
          else s'.voices[i] == s.voices[i])
  }

  /** update_voices on the channels of the mask below `n`. */
  ghost predicate UpdatedBelow(c: Config, s: State, s': State, mask: set<int>, n: nat)
    requires Shape(c, s)
  {
    && s' == s.(voices := s'.voices) && |s'.voices| == c.voices
    && forall i :: 0 <= i < c.voices ==>
      if i in s.used && s.info[i].0 in mask && s.info[i].0 < n && c.hasFreq
      then TunedVoice(c, s.voices[i], s'.voices[i], s.chans[s.info[i].0], s.info[i].1) else s'.voices[i] == s.voices[i]
  }

  lemma UpdateOne(c: Config, s: State, ch: int)
    requires Shape(c, s) && IsChannel(ch)
    ensures Retuned(c, s, UpdateVoices(c, s, ch), ch, s.chans[ch])
  {
    UpdateRetunes(c, s, ch, s.chans[ch]);
    assert SetChannel(c, s, ch, s.chans[ch]) == s;
  }

  lemma {:induction false} UpdateChannelsEffect(c: Config, s: State, mask: set<int>, n: nat)
    requires Shape(c, s) && n <= CHANNELS
    ensures UpdatedBelow(c, s, UpdateChannels(c, s, mask, n), mask, n)
  {
    if n > 0 {
      UpdateChannelsEffect(c, s, mask, n - 1);
      var s1 := UpdateChannels(c, s, mask, n - 1);
      if n - 1 in mask {
        UpdateOne(c, s1, n - 1);
        UpdatedNext(c, s, s1, UpdateChannels(c, s, mask, n), mask, n);
      } else {
        UpdatedSkip(c, s, s1, mask, n);
      }
    }
  }

  lemma UpdatedNext(c: Config, s: State, s1: State, s2: State, mask: set<int>, n: nat)
    requires Shape(c, s) && Shape(c, s1) && 0 < n <= CHANNELS && n - 1 in mask
    requires UpdatedBelow(c, s, s1, mask, n - 1) && Retuned(c, s1, s2, n - 1, s1.chans[n - 1])
    ensures UpdatedBelow(c, s, s2, mask, n)
  {
    assert s1.chans[n - 1 := s1.chans[n - 1]] == s1.chans;
    forall i | 0 <= i < c.voices
      ensures if i in s.used && s.info[i].0 in mask && s.info[i].0 < n && c.hasFreq
              then TunedVoice(c, s.voices[i], s2.voices[i], s.chans[s.info[i].0], s.info[i].1) else s2.voices[i] == s.voices[i]
    {
    }
  }

  lemma UpdatedSkip(c: Config, s: State, s1: State, mask: set<int>, n: nat)
    requires Shape(c, s) && 0 < n <= CHANNELS && n - 1 !in mask && UpdatedBelow(c, s, s1, mask, n - 1)
    ensures UpdatedBelow(c, s, s1, mask, n)
  {
    forall i | 0 <= i < c.voices
      ensures if i in s.used && s.info[i].0 in mask && s.info[i].0 < n && c.hasFreq
              then TunedVoice(c, s.voices[i], s1.voices[i], s.chans[s.info[i].0], s.info[i].1) else s1.voices[i] == s.voices[i]
    {
    }
  }

  lemma TuningEffects(c: Config, s: State, realtime: bool, mask: set<int>, tuning: seq<real>)
    requires Ok(c, s) && |tuning| == 12
    ensures TuningEffect(c, s, OctaveTuning(c, s, mask, tuning, realtime), realtime, mask, tuning)
  {
    var s1 := OctaveTuning(c, s, mask, tuning, false);
    if realtime {
      UpdateChannelsEffect(c, s1, mask, |s1.chans|);
      var s' := OctaveTuning(c, s, mask, tuning, true);
      forall i | 0 <= i < c.voices
        ensures if i in s.used && s.info[i].0 in mask && c.hasFreq
                then TunedVoice(c, s.voices[i], s'.voices[i], s.chans[s.info[i].0].(tuning := tuning), s.info[i].1)
                else s'.voices[i] == s.voices[i]
      {
        assert IsKey(s.info[i]);
      }
    }
  }

  /** The channels and the twelve notes of a tuning message. */
  ghost predicate TuningData(data: seq<int>, mask: set<int>, tuning: seq<real>)
    requires WellFormed(data) && IsTuning(data)
  {
    && |tuning| == 12
    && (forall ch :: 0 <= ch < CHANNELS ==>
          (ch in mask <==> InMask(data[if ch < 7 then 7 else if ch < 14 then 6 else 5], ch % 7)))
    && (forall i :: 0 <= i < 12 ==>
          tuning[i] == if |data| == 21 then (data[8 + i] - 64) as real / 100.0
                       else (128 * data[8 + 2 * i] + data[9 + 2 * i] - 8192) as real / 8192.0)
  }

  ghost predicate InMask(byte: int, b: int)
    requires 0 <= b
  {
    byte / Power(b) % 2 == 1
  }

  lemma {:induction false} BitIs(x: nat, b: nat)
    ensures Bit(x, b) <==> InMask(x, b)
  {
    if b > 0 {
      BitIs(x / 2, b - 1);
      Halved(x, Power(b - 1));
    }
  }

  lemma Halved(x: nat, p: nat)
    requires p > 0
    ensures x / 2 / p == x / (2 * p)
  {
    var q := x / (2 * p);
    var r := x - 2 * p * q;
    assert 0 <= r < 2 * p;
    assert x / 2 == p * q + r / 2;
    Distribution.DivMod(x / 2, p, q, r / 2);
  }

  lemma TuningDecoded(data: seq<int>)
    requires WellFormed(data) && IsTuning(data)
    ensures var m := Decode(data); m.Tuning? && (m.realtime <==> data[1] == 0x7f) && TuningData(data, m.mask, m.tuning)
  {
    var m := Decode(data);
    forall ch | 0 <= ch < CHANNELS
      ensures ch in m.mask <==> InMask(data[if ch < 7 then 7 else if ch < 14 then 6 else 5], ch % 7)
    {
      MaskBytes(data[5], data[6], data[7], ch);
      BitIs(data[if ch < 7 then 7 else if ch < 14 then 6 else 5], ch % 7);
    }
  }

  /** What the bytes of a message do to the plugin. */
  ghost predicate BytesEffect(c: Config, s: State, s': State, data: seq<int>)
    requires Ok(c, s) && WellFormed(data)
  {
    var kind, ch := data[0] / 16, data[0] % 16;
    if kind == 0x9 && data[2] != 0 then NoteOnEffect(c, s, s', ch, data[1], data[2])
    else if kind == 0x9 || kind == 0x8 then NoteOffEffect(c, s, s', ch, data[1])
    else if kind == 0xe then
      exists bend :: BendOf(data[1], data[2], s.chans[ch].range, bend) && Retuned(c, s, s', ch, s.chans[ch].(bend := bend))
    else if kind == 0xb then ControllerEffect(c, s, s', ch, data[1], data[2])
    else if IsTuning(data) then
      exists mask, tuning :: TuningData(data, mask, tuning) && TuningEffect(c, s, s', data[1] == 0x7f, mask, tuning)
    else s' == s
  }

  lemma BytesEffects(c: Config, s: State, data: seq<int>)
    requires Ok(c, s) && WellFormed(data)
    ensures BytesEffect(c, s, Process(c, s, Decode(data)), data)
  {
    var kind, ch := data[0] / 16, data[0] % 16;
    if kind == 0x9 && data[2] != 0 {
      AllocEffect(c, s, ch, data[1], data[2]);
    } else if kind == 0x9 || kind == 0x8 {
      DeallocEffects(c, s, ch, data[1]);
    } else if kind == 0xe {
      var bend := BendEffect(c, s, PitchBend(c, s, ch, data[1], data[2]), ch, data[1], data[2]);
    } else if kind == 0xb {
      ControllerEffects(c, s, ch, data[1], data[2]);
    } else if IsTuning(data) {
      var m := Decode(data);
      TuningDecoded(data);
      TuningEffects(c, s, m.realtime, m.mask, m.tuning);
    }
  }
}
