/** What the other transitions of the plugin change, and what one call of run() does, in its order. */
module SynthBlocks {
  import opened Sequences
  import opened Synth
  import opened SynthAllocation
  import opened SynthEffects
  import opened SynthMessages
  import opened SynthRuns

  /** A changed control port sets its control everywhere: on all channels and in all used voices. */
  ghost predicate PortEffect(c: Config, s: State, s': State, j: int, x: real)
    requires Shape(c, s) && 0 <= j < |c.controls|
  {
    if x == s.ports[j] then s' == s
    else
      && |s'.chans| == CHANNELS && |s'.voices| == c.voices
      && s' == s.(ports := s.ports[j := x], chans := s'.chans, voices := s'.voices)
      && (forall ch :: 0 <= ch < CHANNELS ==> s'.chans[ch] == s.chans[ch].(midivals := s.chans[ch].midivals[j := x]))
      && (forall i :: 0 <= i < c.voices ==>
            s'.voices[i] == if i in s.used then s.voices[i].(ctrl := s.voices[i].ctrl[j := x]) else s.voices[i])
  }

  /** The gates of the first `n` voices are closed. */
  ghost predicate Closed(c: Config, s: State, s': State, n: nat)
    requires Shape(c, s) && n <= c.voices
  {
    && |s'.voices| == c.voices
    && forall i :: 0 <= i < c.voices ==>
      s'.voices[i] == if i < n && c.hasGate then s.voices[i].(gate := 0.0) else s.voices[i]
  }

  /** All of the first `n` voices are free, the lowest one first. */
  ghost predicate AllFree(s: State, n: nat) {
    && s.notes == map[] && s.used == [] && s.nused == 0 && s.nfree == n == |s.free|
    && forall i :: 0 <= i < n ==> s.free[i] == i
  }

  /** Another polyphony, if it is possible, silences all voices and frees the new number of them. */
  ghost predicate PolyEffect(c: Config, s: State, s': State, n: int)
    requires Shape(c, s)
  {
    if n == s.nvoices || n <= 0 || n > c.voices then s' == s
    else
      && Closed(c, s, s', s.nvoices) && AllFree(s', n) && s'.nvoices == n
      && s' == s.(voices := s'.voices, nvoices := n, notes := s'.notes, free := s'.free, nfree := s'.nfree, used := s'.used,
                  nused := s'.nused)
  }

  /** deactivate() silences and frees all voices and resets the bends. */
  ghost predicate DeactivateEffect(c: Config, s: State, s': State)
    requires Shape(c, s)
  {
    && Closed(c, s, s', s.nvoices) && AllFree(s', s.nvoices) && s'.queued == {} && s'.nqueued == 0 && !s'.active
    && |s'.chans| == CHANNELS && (forall ch :: 0 <= ch < CHANNELS ==> s'.chans[ch] == s.chans[ch].(bend := 0.0))
    && s' == s.(voices := s'.voices, notes := s'.notes, free := s'.free, nfree := s'.nfree, used := s'.used, nused := s'.nused,
                queued := {}, nqueued := 0, active := false, chans := s'.chans)
  }

  /** The voices in use compute `n` samples with their gates, and the gates are kept for the next block. */
  ghost predicate ComputeEffect(c: Config, s: State, s': State, n: nat)
    requires Shape(c, s)
  {
    && |s'.voices| == |s'.lastgate| == c.voices && s' == s.(voices := s'.voices, lastgate := s'.lastgate)
    && forall i :: 0 <= i < c.voices ==>
      && s'.voices[i] == (if i < s.nvoices && n > 0 then s.voices[i].(seen := s.voices[i].seen + [s.voices[i].gate])
                          else s.voices[i])
      && s'.lastgate[i] == if i < s.nvoices && c.hasGate then s.voices[i].gate else s.lastgate[i]
  }

  lemma PortEffects(c: Config, s: State, j: int, x: real)
    requires Shape(c, s) && 0 <= j < |c.controls|
    ensures PortEffect(c, s, SetPort(c, s, j, x), j, x)
  {
  }

  lemma PolyEffects(c: Config, s: State, n: int)
    requires Ok(c, s)
    ensures PolyEffect(c, s, SetPolyphony(c, s, n), n)
  {
  }

  lemma DeactivateEffects(c: Config, s: State)
    requires Ok(c, s)
    ensures DeactivateEffect(c, s, Apply(c, s, Deactivate)) && Apply(c, s, Activate) == s.(active := true)
  {
  }

  lemma ComputeEffects(c: Config, s: State, n: nat)
    requires Shape(c, s)
    ensures ComputeEffect(c, s, Compute(c, s, n), n)
  {
  }

  ghost predicate MessageActs(c: Config, states: seq<State>, from: nat, msgs: seq<seq<int>>, k: nat)
    requires from + |msgs| < |states| && k < |msgs| && WellFormed(msgs[k])
  {
    Ok(c, states[from + k]) && BytesEffect(c, states[from + k], states[from + k + 1], msgs[k])
  }

  /** The messages take effect one after the other, from state `from` on. */
  ghost predicate MessagesAct(c: Config, states: seq<State>, from: nat, msgs: seq<seq<int>>)
    requires from + |msgs| < |states| && forall k :: 0 <= k < |msgs| ==> WellFormed(msgs[k])
  {
    forall k :: 0 <= k < |msgs| ==> MessageActs(c, states, from, msgs, k)
  }

  ghost predicate PortActs(c: Config, states: seq<State>, from: nat, ports: seq<real>, j: nat)
    requires from + |ports| < |states| && |ports| == |c.controls| && j < |ports|
  {
    Ok(c, states[from + j]) && PortEffect(c, states[from + j], states[from + j + 1], j, ports[j])
  }

  /** The control ports take effect one after the other, from state `from` on. */
  ghost predicate PortsAct(c: Config, states: seq<State>, from: nat, ports: seq<real>)
    requires from + |ports| < |states| && |ports| == |c.controls|
  {
    forall j :: 0 <= j < |ports| ==> PortActs(c, states, from, ports, j)
  }

  /** One call of run() goes through these states: the queued voices are released; then, if the plugin is active, the
      polyphony is set, the messages and the control ports take effect in their order, and the samples are computed. */
  ghost predicate BlockRun(c: Config, states: seq<State>, poly: int, msgs: seq<seq<int>>, ports: seq<real>, samples: nat)
    requires c.Valid() && |ports| == |c.controls| && forall k :: 0 <= k < |msgs| ==> WellFormed(msgs[k])
  {
    && |states| >= 2 && Ok(c, states[0]) && QueuedOffEffect(c, states[0], states[1])
    && if !states[0].active then |states| == 2
       else
         && |states| == 4 + |msgs| + |ports|
         && Ok(c, states[1]) && PolyEffect(c, states[1], states[2], poly)
         && MessagesAct(c, states, 2, msgs)
         && PortsAct(c, states, 2 + |msgs|, ports)
         && Ok(c, states[2 + |msgs| + |ports|])
         && ComputeEffect(c, states[2 + |msgs| + |ports|], states[3 + |msgs| + |ports|], samples)
  }

  // ---------------------------------------------------------------------------------------
  // The controller registers
  // ---------------------------------------------------------------------------------------

  /** All controller registers hold seven bits. */
  ghost predicate SevenBit(t: Channel) {
    0 <= t.rpnMsb < 128 && 0 <= t.rpnLsb < 128 && 0 <= t.dataMsb < 128 && 0 <= t.dataLsb < 128
  }

  ghost predicate Registers(s: State) {
    |s.chans| == CHANNELS && forall ch :: 0 <= ch < CHANNELS ==> SevenBit(s.chans[ch])
  }

  lemma ControllerKeepsRegisters(c: Config, s: State, s': State, ch: int, num: int, val: int)
    requires Ok(c, s) && Registers(s) && IsChannel(ch) && 0 <= val < 128 && ControllerEffect(c, s, s', ch, num, val)
    ensures Registers(s')
  {
    assert SevenBit(s.chans[ch]);
    if num == 6 || num == 38 || num == 96 || num == 97 {
      var msb, lsb :| Entered(s.chans[ch], num, val, msb, lsb) && DataEffect(c, s, s', ch, msb, lsb);
      assert SevenBit(DataSet(s.chans[ch], msb, lsb));
    }
  }

  lemma MessageKeepsRegisters(c: Config, s: State, m: Message)
    requires Ok(c, s) && Registers(s) && m.Valid()
    ensures Registers(Process(c, s, m))
  {
    match m {
      case NoteOn(ch, note, vel) => AllocEffect(c, s, ch, note, vel);
      case NoteOff(ch, note) => DeallocEffects(c, s, ch, note);
      case ControlChange(ch, num, val) =>
        ControllerEffects(c, s, ch, num, val);
        ControllerKeepsRegisters(c, s, Process(c, s, m), ch, num, val);
      case Tuning(realtime, mask, tuning) => TuningEffects(c, s, realtime, mask, tuning);
      case _ =>
    }
  }

  lemma ApplyKeepsRegisters(c: Config, s: State, e: Step)
    requires Ok(c, s) && Registers(s) && StepOk(c, s, e)
    ensures Registers(Apply(c, s, e))
  {
    match e {
      case StartBlock => QueuedEffect(c, s);
      case Midi(m) => MessageKeepsRegisters(c, s, m);
      case _ =>
    }
  }

  /** In every run the registers stay within seven bits. */
  lemma {:induction false} RunKeepsRegisters(c: Config, s: State, trace: seq<Step>)
    requires Ok(c, s) && Registers(s) && Legal(c, s, trace)
    ensures Registers(Execute(c, s, trace))
    decreases |trace|
  {
    if trace != [] {
      ApplyOk(c, s, trace[0]);
      ApplyKeepsRegisters(c, s, trace[0]);
      RunKeepsRegisters(c, Apply(c, s, trace[0]), trace[1..]);
    }
  }
}
