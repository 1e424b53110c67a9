/** The polyphonic LV2 synth: voice allocation, MIDI events and the control zones of the voices,
    as functions on the state of the plugin. */
module Synth {
  import opened Sequences

  const CHANNELS := 16
  const NOTES := 128

  /** A control of the Faust program that is mapped to a MIDI controller. */
  datatype Control = Control(isButton: bool, min: real, max: real)

  /** The parts of the plugin that never change.  `voices` is NVOICES, `cps` turns a pitch in semitones
      into a frequency, `ctrlmap` maps controller numbers to input controls. */
  datatype Config = Config(voices: nat, hasFreq: bool, hasGain: bool, hasGate: bool,
                           controls: seq<Control>, ctrlmap: map<int, int>, cps: real -> real)
  {
    predicate Valid() {
      voices > 0 && forall k :: k in ctrlmap ==> 0 <= ctrlmap[k] < |controls|
    }
  }

  /** Per-channel controller data and tuning, in semitones. */
  datatype Channel = Channel(
    midivals: seq<real>, bend: real, range: real, coarse: real, fine: real, tune: real, tuning: seq<real>,
    rpnMsb: int, rpnLsb: int, dataMsb: int, dataLsb: int)

  /** The control zones of one voice, with the gate values its dsp has computed samples with. */
  datatype Voice = Voice(freq: real, gain: real, gate: real, ctrl: seq<real>, seen: seq<real>)

  datatype State = State(
    active: bool,
    nvoices: nat,
    notes: map<(int, int), int>,   // notes[ch][note], absent where the table holds -1
    free: seq<int>, used: seq<int>, nfree: int, nused: int,
    info: seq<(int, int)>,
    queued: set<int>, nqueued: int,
    lastgate: seq<real>,
    voices: seq<Voice>,
    chans: seq<Channel>,
    ports: seq<real>,              // cached values of the control ports
    triggers: seq<int>)            // the voices triggered so far, oldest first

  predicate IsKey(k: (int, int)) {
    0 <= k.0 < CHANNELS && 0 <= k.1 < NOTES
  }

  predicate IsChannel(ch: int) {
    0 <= ch < CHANNELS
  }

  /** The sizes of the tables. */
  ghost predicate Shape(c: Config, s: State) {
    && c.Valid() && 0 < s.nvoices <= c.voices
    && |s.info| == c.voices && |s.lastgate| == c.voices && |s.voices| == c.voices
    && |s.chans| == CHANNELS && |s.ports| == |c.controls|
    && (forall i :: 0 <= i < c.voices ==> IsKey(s.info[i]) && |s.voices[i].ctrl| == |c.controls|)
    && (forall ch :: 0 <= ch < CHANNELS ==> |s.chans[ch].midivals| == |c.controls| && |s.chans[ch].tuning| == 12)
  }

  /** free_voices and used_voices partition the voices, all counters are right, and every cell of the
      note table names a used voice that is not queued and whose note_info is that cell. */
  ghost predicate Allocated(c: Config, s: State)
    requires Shape(c, s)
  {
    && NoDuplicates(s.free) && NoDuplicates(s.used)
    && (forall i :: i in s.used ==> i !in s.free)
    && (forall i :: i in s.free || i in s.used <==> 0 <= i < s.nvoices)
    && s.nfree == |s.free| && s.nused == |s.used| && s.nqueued == |s.queued|
    && (forall i :: i in s.queued ==> i in s.used)
    && (forall k :: k in s.notes ==>
          IsKey(k) && s.notes[k] in s.used && s.notes[k] !in s.queued && s.info[s.notes[k]] == k)
  }

  ghost predicate Ok(c: Config, s: State) {
    Shape(c, s) && Allocated(c, s)
  }

  // ---------------------------------------------------------------------------------------
  // Voices
  // ---------------------------------------------------------------------------------------

  function Pitch(t: Channel, note: int): real
    requires |t.tuning| == 12
  {
    note as real + t.tune + t.tuning[note % 12] + t.bend
  }

  function Frequency(c: Config, t: Channel, note: int): real
    requires |t.tuning| == 12
  {
    c.cps(Pitch(t, note))
  }

  function VoiceOff(c: Config, s: State, i: int): (s': State)
    requires Shape(c, s) && 0 <= i < c.voices
    ensures Shape(c, s')
  {
    if c.hasGate then s.(voices := s.voices[i := s.voices[i].(gate := 0.0)]) else s
  }

  /** A voice whose last block ended with an open gate computes one sample with the gate closed, so
      that the synth sees the gate rise again. */
  function VoiceOn(c: Config, s: State, i: int, note: int, vel: int, ch: int): (s': State)
    requires Shape(c, s) && 0 <= i < c.voices && IsKey((ch, note))
    ensures Shape(c, s')
  {
    var v := s.voices[i];
    var seen := if s.lastgate[i] == 1.0 && c.hasGate then v.seen + [0.0] else v.seen;
    var v' := Voice(
      if c.hasFreq then Frequency(c, s.chans[ch], note) else v.freq,
      if c.hasGain then vel as real / 127.0 else v.gain,
      if c.hasGate then 1.0 else v.gate,
      s.chans[ch].midivals, seen);
    s.(voices := s.voices[i := v'], triggers := s.triggers + [i])
  }

  // ---------------------------------------------------------------------------------------
  // Allocation
  // ---------------------------------------------------------------------------------------

  function Retrigger(c: Config, s: State, i: int, note: int, vel: int, ch: int): (s': State)
    requires Ok(c, s) && i in s.used && IsKey((ch, note))
    ensures Shape(c, s')
  {
    var s1 := VoiceOn(c, VoiceOff(c, s, i), i, note, vel, ch);
    s1.(used := Remove(s1.used, i) + [i])
  }

  function TakeFree(c: Config, s: State, note: int, vel: int, ch: int): (s': State)
    requires Ok(c, s) && s.nfree > 0 && IsKey((ch, note))
    ensures Shape(c, s')
  {
    var i := s.free[0];
    assert i in s.free;
    var s1 := s.(free := s.free[1..], nfree := s.nfree - 1, used := s.used + [i], info := s.info[i := (ch, note)],
                 nused := s.nused + 1);
    var s2 := VoiceOn(c, s1, i, note, vel, ch);
    s2.(notes := s2.notes[(ch, note) := i])
  }

  function Unqueue(s: State, i: int): State {
    if i in s.queued then s.(queued := s.queued - {i}, nqueued := s.nqueued - 1) else s
  }

  function Steal(c: Config, s: State, note: int, vel: int, ch: int): (s': State)
    requires Ok(c, s) && s.nused > 0 && IsKey((ch, note))
    ensures Shape(c, s')
  {
    var i := s.used[0];
    assert i in s.used;
    var s1 := VoiceOff(c, s, i);
    var s2 := Unqueue(s1.(notes := s1.notes - {s1.info[i]}), i);
    var s3 := s2.(used := s2.used[1..] + [i], info := s2.info[i := (ch, note)]);
    var s4 := VoiceOn(c, s3, i, note, vel, ch);
    s4.(notes := s4.notes[(ch, note) := i])
  }

  /** The steal branch is reached with a used voice, as the plugin asserts. */
  lemma SomeVoiceIsUsed(c: Config, s: State)
    requires Ok(c, s) && s.nfree <= 0
    ensures s.nused > 0
  {
    assert 0 in s.free || 0 in s.used;
  }

  function AllocVoice(c: Config, s: State, ch: int, note: int, vel: int): (s': State)
    requires Ok(c, s) && IsKey((ch, note))
    ensures Shape(c, s')
  {
    if (ch, note) in s.notes then Retrigger(c, s, s.notes[(ch, note)], note, vel, ch)
    else if s.nfree > 0 then TakeFree(c, s, note, vel, ch)
    else
      SomeVoiceIsUsed(c, s);
      Steal(c, s, note, vel, ch)
  }

  /** Close the gate of voice `i`, clear its cell and move it to the free list. */
  function Release(c: Config, s: State, i: int, key: (int, int)): (s': State)
    requires Shape(c, s) && 0 <= i < c.voices
    ensures Shape(c, s')
  {
    var s1 := VoiceOff(c, s, i);
    s1.(free := s1.free + [i], nfree := s1.nfree + 1, notes := s1.notes - {key}, used := Remove(s1.used, i),
        nused := if i in s1.used then s1.nused - 1 else s1.nused)
  }

  /** A note that ends before its gate was seen open stays queued until the next run. */
  function DeallocVoice(c: Config, s: State, ch: int, note: int): (s': State)
    requires Ok(c, s) && IsKey((ch, note))
    ensures Shape(c, s')
  {
    if (ch, note) !in s.notes then s
    else
      var i := s.notes[(ch, note)];
      if s.lastgate[i] == 0.0 && c.hasGate then
        if i in s.queued then s
        else s.(queued := s.queued + {i}, nqueued := s.nqueued + 1, notes := s.notes - {(ch, note)})
      else Release(c, s, i, (ch, note))
  }

  /** Release and unqueue the voices of a list, in order. */
  function ReleaseAll(c: Config, s: State, list: seq<int>): (s': State)
    requires Shape(c, s) && forall i :: i in list ==> 0 <= i < c.voices
    ensures Shape(c, s')
    decreases |list|
  {
    if list == [] then s
    else
      var i := list[0];
      assert i in list;
      assert forall j :: j in list[1..] ==> j in list;
      ReleaseAll(c, Unqueue(Release(c, s, i, s.info[i]), i), list[1..])
  }

  /** The voices of a list that play on channel `ch`. */
  function OnChannel(info: seq<(int, int)>, list: seq<int>, ch: int): (r: seq<int>)
    requires forall i :: i in list ==> 0 <= i < |info|
    ensures forall i :: i in r <==> i in list && info[i].0 == ch
    ensures NoDuplicates(list) ==> NoDuplicates(r)
  {
    if list == [] then []
    else
      assert list[0] in list && forall i :: i in list[1..] ==> i in list;
      (if info[list[0]].0 == ch then [list[0]] else []) + OnChannel(info, list[1..], ch)
  }

  function AllNotesOffChannel(c: Config, s: State, ch: int): (s': State)
    requires Ok(c, s) && IsChannel(ch)
    ensures Shape(c, s')
  {
    var s1 := ReleaseAll(c, s, OnChannel(s.info, s.used, ch));
    s1.(chans := s1.chans[ch := s1.chans[ch].(bend := 0.0)])
  }

  /** The queued voices below `n`, in increasing order. */
  function QueuedBelow(s: State, n: nat): (r: seq<int>)
    ensures forall i :: i in r <==> 0 <= i < n && i in s.queued
    ensures NoDuplicates(r)
  {
    if n == 0 then []
    else QueuedBelow(s, n - 1) + if n - 1 in s.queued then [n - 1] else []
  }

  function QueuedNotesOff(c: Config, s: State): (s': State)
    requires Ok(c, s)
    ensures Shape(c, s')
  {
    if s.nqueued == 0 then s else ReleaseAll(c, s, QueuedBelow(s, s.nvoices))
  }

  function Range(n: nat): (r: seq<int>)
    ensures |r| == n && forall i :: 0 <= i < n ==> r[i] == i
  {
    seq(n, i => i)
  }

  function AllOff(c: Config, s: State, n: nat): seq<Voice>
    requires Shape(c, s) && n <= c.voices
  {
    seq(c.voices, i requires 0 <= i < c.voices =>
      if i < n && c.hasGate then s.voices[i].(gate := 0.0) else s.voices[i])
  }

  /** all_notes_off() when the plugin is deactivated. */
  function AllNotesOff(c: Config, s: State): (s': State)
    requires Ok(c, s)
    ensures Shape(c, s')
  {
    s.(voices := AllOff(c, s, s.nvoices),
       chans := seq(CHANNELS, ch requires 0 <= ch < CHANNELS => s.chans[ch].(bend := 0.0)),
       notes := map[], free := Range(s.nvoices), nfree := s.nvoices, queued := {}, nqueued := 0, used := [], nused := 0)
  }

  /** A change of the polyphony control resets the allocation, but not `queued`. */
  function SetPolyphony(c: Config, s: State, n: int): (s': State)
    requires Ok(c, s)
    ensures Shape(c, s')
  {
    if s.nvoices != n && 0 < n <= c.voices then
      s.(voices := AllOff(c, s, s.nvoices), nvoices := n, notes := map[], free := Range(n), nfree := n, used := [], nused := 0)
    else s
  }

  // ---------------------------------------------------------------------------------------
  // Tuning and controllers
  // ---------------------------------------------------------------------------------------

  /** update_voices: the frequency zone of every used voice on the channel. */
  function UpdateVoices(c: Config, s: State, ch: int): (s': State)
    requires Shape(c, s) && IsChannel(ch)
    ensures Shape(c, s')
  {
    s.(voices := seq(c.voices, i requires 0 <= i < c.voices =>
      if i in s.used && s.info[i].0 == ch && c.hasFreq
      then s.voices[i].(freq := Frequency(c, s.chans[ch], s.info[i].1)) else s.voices[i]))
  }

  function SetChannel(c: Config, s: State, ch: int, t: Channel): (s': State)
    requires Shape(c, s) && IsChannel(ch) && |t.midivals| == |c.controls| && |t.tuning| == 12
    ensures Shape(c, s')
  {
    s.(chans := s.chans[ch := t])
  }

  /** A 14-bit value that stands for minus to plus the bend range, with 0x2000 in the centre. */
  function SetBend(t: Channel, val: int): Channel {
    t.(bend := (val - 0x2000) as real / 8192.0 * t.range)
  }

  function PitchBend(c: Config, s: State, ch: int, lsb: int, msb: int): (s': State)
    requires Shape(c, s) && IsChannel(ch)
    ensures Shape(c, s')
  {
    UpdateVoices(c, SetChannel(c, s, ch, SetBend(s.chans[ch], lsb + msb * 128)), ch)
  }

  /** Data increment and decrement act on the MSB for coarse tuning and on the LSB otherwise. */
  function Nudge(t: Channel, up: bool): Channel {
    if t.rpnMsb == 0 && t.rpnLsb == 2 then
      if up && t.dataMsb < 0x7f then t.(dataMsb := t.dataMsb + 1)
      else if !up && t.dataMsb > 0 then t.(dataMsb := t.dataMsb - 1)
      else t
    else
      if up && t.dataLsb < 0x7f then t.(dataLsb := t.dataLsb + 1)
      else if !up && t.dataLsb > 0 then t.(dataLsb := t.dataLsb - 1)
      else t
  }

  /** The data registers after controllers 6, 38, 96 and 97. */
  function DataEntry(t: Channel, num: int, val: int): (t': Channel)
    ensures t' == t.(dataMsb := t'.dataMsb, dataLsb := t'.dataLsb)
  {
    if num == 6 then t.(dataMsb := val)
    else if num == 38 then t.(dataLsb := val)
    else Nudge(t, num == 96)
  }

  /** Semitones and cents. */
  function SetBendRange(t: Channel): Channel {
    t.(range := t.dataMsb as real + t.dataLsb as real / 100.0)
  }

  /** A 14-bit value that stands for -100 to +100 cents. */
  function SetFineTuning(t: Channel): (t': Channel) {
    var fine := (t.dataMsb * 128 + t.dataLsb - 8192) as real / 8192.0;
    t.(fine := fine, tune := t.coarse + fine)
  }

  /** -64 to +63 semitones. */
  function SetCoarseTuning(t: Channel): (t': Channel) {
    var coarse := (t.dataMsb - 64) as real;
    t.(coarse := coarse, tune := coarse + t.fine)
  }

  /** Registered parameters 0 (bend range), 1 (fine tuning) and 2 (coarse tuning). */
  function ApplyRpn(c: Config, s: State, ch: int): (s': State)
    requires Shape(c, s) && IsChannel(ch)
    ensures Shape(c, s')
  {
    var t := s.chans[ch];
    if t.rpnMsb != 0 then s
    else if t.rpnLsb == 0 then SetChannel(c, s, ch, SetBendRange(t))
    else if t.rpnLsb == 1 then UpdateVoices(c, SetChannel(c, s, ch, SetFineTuning(t)), ch)
    else if t.rpnLsb == 2 then UpdateVoices(c, SetChannel(c, s, ch, SetCoarseTuning(t)), ch)
    else s
  }

  function ControlValue(el: Control, v: int): real {
    if el.isButton then (if v >= 64 then 1.0 else 0.0)
    else if v == 127 then el.max
    else el.min + (el.max - el.min) * (v as real) / 128.0
  }

  /** A mapped controller goes into the channel's data and into the running voices of the channel. */
  function MappedController(c: Config, s: State, ch: int, num: int, val: int): (s': State)
    requires Shape(c, s) && IsChannel(ch)
    ensures Shape(c, s')
  {
    if num !in c.ctrlmap then s
    else
      var j := c.ctrlmap[num];
      var x := ControlValue(c.controls[j], val);
      var t := s.chans[ch];
      s.(chans := s.chans[ch := t.(midivals := t.midivals[j := x])],
         voices := seq(c.voices, i requires 0 <= i < c.voices =>
           if i in s.used && s.info[i].0 == ch then s.voices[i].(ctrl := s.voices[i].ctrl[j := x]) else s.voices[i]))
  }

  function Controller(c: Config, s: State, ch: int, num: int, val: int): (s': State)
    requires Ok(c, s) && IsChannel(ch)
    ensures Shape(c, s')
  {
    var t := s.chans[ch];
    if num == 120 || num == 123 then AllNotesOffChannel(c, s, ch)
    else if num == 121 then SetChannel(c, s, ch, t.(dataMsb := 0, dataLsb := 0, rpnMsb := 0x7f, rpnLsb := 0x7f))
    else if num == 101 then SetChannel(c, s, ch, t.(rpnMsb := val))
    else if num == 100 then SetChannel(c, s, ch, t.(rpnLsb := val))
    else if num == 6 || num == 38 || num == 96 || num == 97 then ApplyRpn(c, SetChannel(c, s, ch, DataEntry(t, num, val)), ch)
    else MappedController(c, s, ch, num, val)
  }

  /** Scale/octave tuning of the channels in `mask`; only the real-time form retunes running voices. */
  function OctaveTuning(c: Config, s: State, mask: set<int>, tuning: seq<real>, realtime: bool): (s': State)
    requires Shape(c, s) && |tuning| == 12
    ensures Shape(c, s')
  {
    var s1 := s.(chans := seq(CHANNELS, ch requires 0 <= ch < CHANNELS =>
      if ch in mask then s.chans[ch].(tuning := tuning) else s.chans[ch]));
    if realtime then UpdateChannels(c, s1, mask, |s1.chans|) else s1
  }

  function UpdateChannels(c: Config, s: State, mask: set<int>, n: nat): (s': State)
    requires Shape(c, s) && n <= CHANNELS
    ensures Shape(c, s')
  {
    if n == 0 then s
    else
      var s1 := UpdateChannels(c, s, mask, n - 1);
      if n - 1 in mask then UpdateVoices(c, s1, n - 1) else s1
  }

  /** A changed control port overrides the MIDI controllers of all channels. */
  function SetPort(c: Config, s: State, j: int, x: real): (s': State)
    requires Shape(c, s) && 0 <= j < |c.controls|
    ensures Shape(c, s')
  {
    if x == s.ports[j] then s
    else
      s.(voices := seq(c.voices, i requires 0 <= i < c.voices =>
           if i in s.used then s.voices[i].(ctrl := s.voices[i].ctrl[j := x]) else s.voices[i]),
         chans := seq(CHANNELS, ch requires 0 <= ch < CHANNELS =>
           s.chans[ch].(midivals := s.chans[ch].midivals[j := x])),
         ports := s.ports[j := x])
  }

  // ---------------------------------------------------------------------------------------
  // MIDI messages
  // ---------------------------------------------------------------------------------------

  datatype Message =
    | NoteOn(ch: int, note: int, vel: int)
    | NoteOff(ch: int, note: int)
    | Bend(ch: int, lsb: int, msb: int)
    | ControlChange(ch: int, num: int, val: int)
    | Tuning(realtime: bool, mask: set<int>, tuning: seq<real>)
    | Ignored
  {
    predicate Valid() {
      match this
      case NoteOn(ch, note, vel) => IsKey((ch, note)) && 0 < vel < 128
      case NoteOff(ch, note) => IsKey((ch, note))
      case Bend(ch, lsb, msb) => IsChannel(ch) && 0 <= lsb < 128 && 0 <= msb < 128
      case ControlChange(ch, num, val) => IsChannel(ch) && 0 <= num < 128 && 0 <= val < 128
      case Tuning(_, _, tuning) => |tuning| == 12
      case Ignored => true
    }
  }

  /** Bit `b` of the number `x`. */
  function Bit(x: nat, b: nat): bool {
    if b == 0 then x % 2 == 1 else Bit(x / 2, b - 1)
  }

  function Mask(a: int, b: int, c: int): set<int>
    requires 0 <= a < 128 && 0 <= b < 128 && 0 <= c < 128
  {
    var bits := a * 16384 + b * 128 + c;
    set ch | 0 <= ch < CHANNELS && Bit(bits, ch)
  }

  /** A MIDI Tuning Standard scale/octave tuning message, in its 1-byte or 2-byte form. */
  predicate IsTuning(data: seq<int>) {
    && (|data| == 21 || |data| == 33) && data[0] == 0xf0 && data[|data| - 1] == 0xf7
    && (data[1] == 0x7e || data[1] == 0x7f) && data[3] == 8 && data[4] == (if |data| == 21 then 8 else 9)
  }

  /** Bytes, of which those that the plugin looks at as data are below 128.  Nothing is demanded of the messages
      that the plugin ignores. */
  predicate WellFormed(data: seq<int>) {
    && |data| >= 1 && 0 <= data[0] < 0x100
    && (data[0] / 16 in {0x8, 0x9, 0xb, 0xe} ==> |data| >= 3 && 0 <= data[1] < 128 && 0 <= data[2] < 128)
    && (IsTuning(data) ==> forall i :: 5 <= i < |data| - 1 ==> 0 <= data[i] < 128)
  }

  function Decode(data: seq<int>): (m: Message)
    requires WellFormed(data)
    ensures m.Valid()
  {
    var status, ch := data[0] / 16, data[0] % 16;
    if status == 0x9 then
      if data[2] == 0 then NoteOff(ch, data[1]) else NoteOn(ch, data[1], data[2])
    else if status == 0x8 then NoteOff(ch, data[1])
    else if status == 0xe then Bend(ch, data[1], data[2])
    else if status == 0xb then ControlChange(ch, data[1], data[2])
    else if IsTuning(data) then
      Tuning(data[1] == 0x7f, Mask(data[5], data[6], data[7]),
             seq(12, i requires 0 <= i < 12 =>
               if |data| == 21 then (data[i + 8] - 64) as real / 100.0
               else (data[2 * i + 8] * 128 + data[2 * i + 9] - 8192) as real / 8192.0))
    else Ignored
  }

  /** The bytes of a channel message. */
  function Encode(m: Message): (data: seq<int>)
    requires m.Valid() && !m.Tuning? && !m.Ignored?
  {
    match m
    case NoteOn(ch, note, vel) => [0x90 + ch, note, vel]
    case NoteOff(ch, note) => [0x80 + ch, note, 0]
    case Bend(ch, lsb, msb) => [0xe0 + ch, lsb, msb]
    case ControlChange(ch, num, val) => [0xb0 + ch, num, val]
  }

  lemma DecodeEncode(m: Message)
    requires m.Valid() && !m.Tuning? && !m.Ignored?
    ensures WellFormed(Encode(m)) && Decode(Encode(m)) == m
  {
  }

  /** A tuning message from its parts: the twelve notes in one or two bytes each. */
  function EncodeTuning(realtime: bool, device: int, a: int, b: int, c: int, notes: seq<int>): (data: seq<int>) {
    [0xf0, if realtime then 0x7f else 0x7e, device, 8, if |notes| == 12 then 8 else 9, a, b, c] + notes + [0xf7]
  }

  lemma DecodeTuning(realtime: bool, device: int, a: int, b: int, c: int, notes: seq<int>)
    requires 0 <= a < 128 && 0 <= b < 128 && 0 <= c < 128 && (|notes| == 12 || |notes| == 24)
    requires forall i :: 0 <= i < |notes| ==> 0 <= notes[i] < 128
    ensures var data := EncodeTuning(realtime, device, a, b, c, notes);
      && WellFormed(data)
      && Decode(data) == Tuning(realtime, Mask(a, b, c), seq(12, i requires 0 <= i < 12 =>
           if |notes| == 12 then (notes[i] - 64) as real / 100.0
           else (notes[2 * i] * 128 + notes[2 * i + 1] - 8192) as real / 8192.0))
  {
    var data := EncodeTuning(realtime, device, a, b, c, notes);
    assert forall i :: 0 <= i < |notes| ==> data[8 + i] == notes[i];
  }

  /** Conversely, only these bytes decode to channel messages; a note-on with velocity 0 counts as a note-off, whose
      velocity is lost. */
  lemma EncodeDecode(data: seq<int>)
    requires WellFormed(data) && !Decode(data).Tuning? && !Decode(data).Ignored?
    ensures var m := Decode(data);
      if m.NoteOff? then
        data[1] == m.note && (data[0] == 0x80 + m.ch || (data[0] == 0x90 + m.ch && data[2] == 0))
      else data[..3] == Encode(m)
  {
  }

  /** Only the two tuning forms decode to a tuning message. */
  lemma TuningEncoded(data: seq<int>) returns (notes: seq<int>)
    requires WellFormed(data) && Decode(data).Tuning?
    ensures (|notes| == 12 || |notes| == 24) && |data| == |notes| + 9
    ensures data == EncodeTuning(Decode(data).realtime, data[2], data[5], data[6], data[7], notes)
  {
    notes := data[8..|data| - 1];
  }

  function Process(c: Config, s: State, m: Message): (s': State)
    requires Ok(c, s) && m.Valid()
    ensures Shape(c, s')
  {
    match m
    case NoteOn(ch, note, vel) => AllocVoice(c, s, ch, note, vel)
    case NoteOff(ch, note) => DeallocVoice(c, s, ch, note)
    case Bend(ch, lsb, msb) => PitchBend(c, s, ch, lsb, msb)
    case ControlChange(ch, num, val) => Controller(c, s, ch, num, val)
    case Tuning(realtime, mask, tuning) => OctaveTuning(c, s, mask, tuning, realtime)
    case Ignored => s
  }

  /** The dsps of all voices compute `n` samples with the current zones. */
  function Compute(c: Config, s: State, n: nat): (s': State)
    requires Shape(c, s)
    ensures Shape(c, s')
  {
    s.(voices := seq(c.voices, i requires 0 <= i < c.voices =>
         if i < s.nvoices && n > 0 then s.voices[i].(seen := s.voices[i].seen + [s.voices[i].gate]) else s.voices[i]),
       lastgate := seq(c.voices, i requires 0 <= i < c.voices =>
         if i < s.nvoices && c.hasGate then s.voices[i].gate else s.lastgate[i]))
  }

  // ---------------------------------------------------------------------------------------
  // The plugin over time
  // ---------------------------------------------------------------------------------------

  /** The elementary transitions of the plugin. */
  datatype Step =
    | StartBlock
    | SetPoly(n: int)
    | Midi(m: Message)
    | SetControl(j: int, x: real)
    | EndBlock(samples: nat)
    | Activate
    | Deactivate

  /** The plugin changes its polyphony only when no voice is queued. */
  predicate StepOk(c: Config, s: State, e: Step) {
    && (e.Midi? ==> e.m.Valid())
    && (e.SetControl? ==> 0 <= e.j < |c.controls|)
    && (e.SetPoly? ==> s.queued == {})
  }

  function Apply(c: Config, s: State, e: Step): (s': State)
    requires Ok(c, s) && StepOk(c, s, e)
    ensures Shape(c, s')
  {
    match e
    case StartBlock => QueuedNotesOff(c, s)
    case SetPoly(n) => SetPolyphony(c, s, n)
    case Midi(m) => Process(c, s, m)
    case SetControl(j, x) => SetPort(c, s, j, x)
    case EndBlock(n) => Compute(c, s, n)
    case Activate => s.(active := true)
    case Deactivate => AllNotesOff(c, s).(active := false)
  }

  /** A fresh plugin: no voice sounds, all zones of voice `i` have the values `init` and a closed gate. */
  function Initial(c: Config, freq: real, gain: real, init: seq<real>): State
    requires c.Valid() && |init| == |c.controls|
  {
    State(false, c.voices, map[], Range(c.voices), [], c.voices, 0,
          seq(c.voices, _ => (0, 0)), {}, 0, seq(c.voices, _ => 0.0),
          seq(c.voices, _ => Voice(freq, gain, 0.0, init, [])),
          seq(CHANNELS, _ => Channel(init, 0.0, 2.0, 0.0, 0.0, 0.0, seq(12, _ => 0.0), 0x7f, 0x7f, 0, 0)),
          init, [])
  }
}
