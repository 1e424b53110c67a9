/** The plugin object: its methods update the tables in place, with the loops of the original, and are
    proved to compute the transitions of module Synth. */
module SynthPlugin {
  import opened Sequences
  import opened Synth
  import opened SynthAllocation
  import opened SynthRuns
  import opened SynthMessages
  import opened SynthBlocks

  /** ReleaseAll can also be continued at its end. */
  lemma {:induction false} ReleaseAllAppend(c: Config, s: State, list: seq<int>, i: int)
    requires Shape(c, s) && 0 <= i < c.voices && forall j :: j in list ==> 0 <= j < c.voices
    ensures var s1 := ReleaseAll(c, s, list);
      ReleaseAll(c, s, list + [i]) == Unqueue(Release(c, s1, i, s1.info[i]), i)
    decreases |list|
  {
    if list == [] {
      var s1 := Unqueue(Release(c, s, i, s.info[i]), i);
      assert ([i])[1..] == [];
      assert [] + [i] == [i];
      assert ReleaseAll(c, s1, []) == s1;
    } else {
      var j := list[0];
      assert j in list && forall k :: k in list[1..] ==> k in list;
      assert (list + [i])[0] == j && (list + [i])[1..] == list[1..] + [i];
      assert forall k :: k in list + [i] ==> k in list || k == i;
      ReleaseAllAppend(c, Unqueue(Release(c, s, j, s.info[j]), j), list[1..], i);
    }
  }

  /** The outcome of the loop of queued_notes_off up to voice `n`. */
  ghost function QueuedDone(c: Config, s: State, n: nat): State
    requires Ok(c, s) && n <= s.nvoices
  {
    ReleaseAll(c, s, QueuedBelow(s, n))
  }

  /** One round of that loop. */
  lemma QueuedStep(c: Config, s: State, i: nat)
    requires Ok(c, s) && i < s.nvoices
    ensures var s1 := QueuedDone(c, s, i);
      && Ok(c, s1) && (i in s1.queued <==> i in s.queued) && (i in s1.queued ==> i in s1.used) && s1.nvoices == s.nvoices
      && QueuedDone(c, s, i + 1) ==
           if i in s.queued then Unqueue(Release(c, s1, i, s1.info[i]), i) else s1
  {
    ReleaseAllOk(c, s, QueuedBelow(s, i));
    if i in s.queued {
      ReleaseAllAppend(c, s, QueuedBelow(s, i), i);
    } else {
      assert QueuedBelow(s, i + 1) == QueuedBelow(s, i);
    }
  }

  /** Number `i` of the states between the rounds. */
  ghost predicate RoundAt(c: Config, s: State, rounds: seq<State>, i: nat)
    requires Ok(c, s) && i <= s.nvoices && |rounds| == s.nvoices + 1
  {
    rounds[i] == QueuedDone(c, s, i)
  }

  ghost predicate Rounds(c: Config, s: State, rounds: seq<State>)
    requires Ok(c, s)
  {
    |rounds| == s.nvoices + 1 && forall i :: 0 <= i <= s.nvoices ==> RoundAt(c, s, rounds, i)
  }

  ghost function AllRounds(c: Config, s: State): (rounds: seq<State>)
    requires Ok(c, s)
    ensures Rounds(c, s, rounds) && rounds[0] == s
  {
    seq(s.nvoices + 1, i requires 0 <= i <= s.nvoices => QueuedDone(c, s, i))
  }

  lemma LastRound(c: Config, s: State, rounds: seq<State>)
    requires Ok(c, s) && Rounds(c, s, rounds)
    ensures rounds[s.nvoices] == QueuedDone(c, s, s.nvoices)
  {
    assert RoundAt(c, s, rounds, s.nvoices);
  }

  lemma UsedBound(c: Config, s: State, k: nat)
    requires Ok(c, s) && k <= |s.used|
    ensures forall i :: i in s.used[k..] ==> 0 <= i < |s.info| && 0 <= i < c.voices
  {
    forall i | i in s.used[k..] ensures 0 <= i < |s.info| && 0 <= i < c.voices {
      assert i in s.used;
    }
  }

  /** The outcome of the loop of all_notes_off from position `k` of the used list on. */
  ghost function OffFrom(c: Config, s: State, k: nat, ch: int): State
    requires Ok(c, s) && k <= |s.used|
  {
    UsedBound(c, s, k);
    ReleaseAll(c, s, OnChannel(s.info, s.used[k..], ch))
  }

  lemma EraseAt(s: seq<int>, k: nat)
    requires NoDuplicates(s) && k < |s|
    ensures |Remove(s, s[k])| == |s| - 1 && Remove(s, s[k])[k..] == s[k + 1..]
  {
    var at := RemoveAt(s, s[k]);
    assert at == k;
  }

  lemma OnChannelSplit(info: seq<(int, int)>, used: seq<int>, k: nat, ch: int)
    requires k < |used| && forall i :: i in used[k..] ==> 0 <= i < |info|
    requires var rest := used[k + 1..]; forall i :: i in rest ==> 0 <= i < |info|
    ensures used[k] in used[k..]
    ensures OnChannel(info, used[k..], ch) ==
      (if info[used[k]].0 == ch then [used[k]] else []) + OnChannel(info, used[k + 1..], ch)
  {
    assert used[k..][0] == used[k] && used[k..][1..] == used[k + 1..];
  }

  /** One round of that loop. */
  lemma OffStep(c: Config, s: State, k: nat, ch: int)
    requires Ok(c, s) && k < |s.used|
    ensures s.used[k] in s.used
    ensures var i := s.used[k];
      if s.info[i].0 == ch then
        var s1 := Unqueue(Release(c, s, i, s.info[i]), i);
        Ok(c, s1) && |s1.used| == |s.used| - 1 && OffFrom(c, s1, k, ch) == OffFrom(c, s, k, ch)
      else OffFrom(c, s, k + 1, ch) == OffFrom(c, s, k, ch)
  {
    var i := s.used[k];
    assert i in s.used;
    UsedBound(c, s, k);
    UsedBound(c, s, k + 1);
    OnChannelSplit(s.info, s.used, k, ch);
    var rest := OnChannel(s.info, s.used[k + 1..], ch);
    if s.info[i].0 == ch {
      ReleaseOk(c, s, i);
      ReleaseFields(c, s, i);
      EraseAt(s.used, k);
      assert ([i] + rest)[1..] == rest;
    } else {
      assert [] + rest == rest;
    }
  }

  lemma SetChannelOk(c: Config, s: State, ch: int, t: Channel)
    requires Ok(c, s) && IsChannel(ch) && |t.midivals| == |c.controls| && |t.tuning| == 12
    ensures Ok(c, SetChannel(c, s, ch, t))
  {
  }

  /** The messages behind the bytes. */
  function DecodeAll(msgs: seq<seq<int>>): (r: seq<Message>)
    requires forall k :: 0 <= k < |msgs| ==> WellFormed(msgs[k])
    ensures |r| == |msgs| && forall k :: 0 <= k < |r| ==> r[k] == Decode(msgs[k]) && r[k].Valid()
  {
    seq(|msgs|, k requires 0 <= k < |msgs| => Decode(msgs[k]))
  }

  /** Where the transitions of an active block stand in its trace. */
  lemma TraceAt(poly: int, msgs: seq<seq<int>>, portvals: seq<real>, samples: nat, trace: seq<Step>)
    requires forall k :: 0 <= k < |msgs| ==> WellFormed(msgs[k])
    requires trace == RunSteps(true, poly, DecodeAll(msgs), portvals, samples)
    ensures |trace| == 3 + |msgs| + |portvals| && trace[0] == StartBlock && trace[1] == SetPoly(poly)
    ensures forall k :: 0 <= k < |msgs| ==> trace[2 + k] == Midi(Decode(msgs[k]))
    ensures forall j :: 0 <= j < |portvals| ==> trace[2 + |msgs| + j] == SetControl(j, portvals[j])
    ensures trace[2 + |msgs| + |portvals|] == EndBlock(samples)
  {
  }

  lemma AllMessagesAct(c: Config, states: seq<State>, trace: seq<Step>, msgs: seq<seq<int>>)
    requires Path(c, states, trace) && 2 + |msgs| <= |trace|
    requires forall k :: 0 <= k < |msgs| ==> WellFormed(msgs[k]) && trace[2 + k] == Midi(Decode(msgs[k]))
    ensures MessagesAct(c, states, 2, msgs)
  {
    forall k | 0 <= k < |msgs| ensures MessageActs(c, states, 2, msgs, k) {
      LinkBytes(c, states, trace, 2 + k, msgs[k]);
    }
  }

  lemma AllPortsAct(c: Config, states: seq<State>, trace: seq<Step>, from: nat, portvals: seq<real>)
    requires Path(c, states, trace) && from + |portvals| <= |trace| && |portvals| == |c.controls|
    requires forall j :: 0 <= j < |portvals| ==> trace[from + j] == SetControl(j, portvals[j])
    ensures PortsAct(c, states, from, portvals)
  {
    forall j | 0 <= j < |portvals| ensures PortActs(c, states, from, portvals, j) {
      LinkPort(c, states, trace, from + j, j, portvals[j]);
    }
  }

  /** Every transition in the trace of a block has its effect. */
  lemma PathIsBlock(c: Config, states: seq<State>, poly: int, msgs: seq<seq<int>>, portvals: seq<real>, samples: nat)
    requires c.Valid() && |portvals| == |c.controls| && forall k :: 0 <= k < |msgs| ==> WellFormed(msgs[k])
    requires states != [] && Path(c, states, RunSteps(states[0].active, poly, DecodeAll(msgs), portvals, samples))
    ensures BlockRun(c, states, poly, msgs, portvals, samples)
  {
    var trace := RunSteps(states[0].active, poly, DecodeAll(msgs), portvals, samples);
    LinkQueued(c, states, trace);
    if states[0].active {
      TraceAt(poly, msgs, portvals, samples, trace);
      LinkPoly(c, states, trace, poly);
      AllMessagesAct(c, states, trace, msgs);
      AllPortsAct(c, states, trace, 2 + |msgs|, portvals);
      LinkCompute(c, states, trace, 2 + |msgs| + |portvals|, samples);
    }
  }

  /** The states that run() goes through. */
  lemma BlockStates(c: Config, s: State, poly: int, msgs: seq<seq<int>>, portvals: seq<real>, samples: nat)
      returns (states: seq<State>)
    requires Ok(c, s) && |portvals| == |c.controls| && forall k :: 0 <= k < |msgs| ==> WellFormed(msgs[k])
    ensures var trace := RunSteps(s.active, poly, DecodeAll(msgs), portvals, samples);
      && Legal(c, s, trace) && Path(c, states, trace) && states[0] == s && states[|trace|] == Execute(c, s, trace)
      && trace[0] == StartBlock && states[1] == Synth.QueuedNotesOff(c, s)
    ensures BlockRun(c, states, poly, msgs, portvals, samples)
  {
    var trace := RunSteps(s.active, poly, DecodeAll(msgs), portvals, samples);
    RunIsLegal(c, s, poly, DecodeAll(msgs), portvals, samples);
    states := StatesOf(c, s, trace);
    PathIsBlock(c, states, poly, msgs, portvals, samples);
    assert Link(c, states, trace, 0);
  }

  lemma LinkQueued(c: Config, states: seq<State>, trace: seq<Step>)
    requires Path(c, states, trace) && trace != [] && trace[0] == StartBlock
    ensures Ok(c, states[0]) && SynthEffects.QueuedOffEffect(c, states[0], states[1])
  {
    assert Link(c, states, trace, 0);
    SynthEffects.QueuedEffect(c, states[0]);
  }

  lemma LinkPoly(c: Config, states: seq<State>, trace: seq<Step>, poly: int)
    requires Path(c, states, trace) && |trace| >= 2 && trace[1] == SetPoly(poly)
    ensures Ok(c, states[1]) && PolyEffect(c, states[1], states[2], poly)
  {
    assert Link(c, states, trace, 1);
    PolyEffects(c, states[1], poly);
  }

  lemma LinkBytes(c: Config, states: seq<State>, trace: seq<Step>, k: nat, data: seq<int>)
    requires Path(c, states, trace) && k < |trace| && WellFormed(data) && trace[k] == Midi(Decode(data))
    ensures Ok(c, states[k]) && BytesEffect(c, states[k], states[k + 1], data)
  {
    assert Link(c, states, trace, k);
    BytesEffects(c, states[k], data);
  }

  lemma LinkPort(c: Config, states: seq<State>, trace: seq<Step>, k: nat, j: int, x: real)
    requires Path(c, states, trace) && k < |trace| && 0 <= j < |c.controls| && trace[k] == SetControl(j, x)
    ensures Ok(c, states[k]) && PortEffect(c, states[k], states[k + 1], j, x)
  {
    assert Link(c, states, trace, k);
    PortEffects(c, states[k], j, x);
  }

  lemma LinkCompute(c: Config, states: seq<State>, trace: seq<Step>, k: nat, samples: nat)
    requires Path(c, states, trace) && k < |trace| && trace[k] == EndBlock(samples)
    ensures Ok(c, states[k]) && ComputeEffect(c, states[k], states[k + 1], samples)
  {
    assert Link(c, states, trace, k);
    ComputeEffects(c, states[k], samples);
  }

  lemma {:induction false} ReleaseKeepsActive(c: Config, s: State, list: seq<int>)
    requires Shape(c, s) && forall i :: i in list ==> 0 <= i < c.voices
    ensures ReleaseAll(c, s, list).active == s.active
    decreases |list|
  {
    if list != [] {
      var i := list[0];
      assert i in list && forall k :: k in list[1..] ==> k in list;
      ReleaseKeepsActive(c, Unqueue(Release(c, s, i, s.info[i]), i), list[1..]);
    }
  }

  lemma QueuedKeepsActive(c: Config, s: State)
    requires Ok(c, s)
    ensures Synth.QueuedNotesOff(c, s).active == s.active
  {
    ReleaseKeepsActive(c, s, QueuedBelow(s, s.nvoices));
  }

  class LV2SynthPlugin {
    const c: Config
    var active: bool
    var nvoices: nat
    var notes: map<(int, int), int>
    var free: seq<int>
    var used: seq<int>
    var nfree: int
    var nused: int
    var info: seq<(int, int)>
    var queued: set<int>
    var nqueued: int
    var lastgate: seq<real>
    var voices: seq<Voice>
    var chans: seq<Channel>
    var ports: seq<real>
    var triggers: seq<int>

    /** The state of the object. */
    function Current(): State
      reads this
    {
      State(active, nvoices, notes, free, used, nfree, nused, info, queued, nqueued, lastgate, voices, chans, ports,
            triggers)
    }

    constructor (c: Config, freq: real, gain: real, init: seq<real>)
      requires c.Valid() && |init| == |c.controls|
      ensures this.c == c && Current() == Initial(c, freq, gain, init)
      ensures !active && nvoices == nfree == |free| == c.voices && notes == map[] && used == [] && nused == 0
      ensures forall i :: 0 <= i < c.voices ==> free[i] == i && voices[i] == Voice(freq, gain, 0.0, init, []) && lastgate[i] == 0.0
      ensures queued == {} && nqueued == 0 && ports == init && |chans| == CHANNELS
      ensures forall ch :: 0 <= ch < CHANNELS ==>
        && chans[ch].midivals == init && chans[ch].range == 2.0
        && chans[ch].bend == chans[ch].coarse == chans[ch].fine == chans[ch].tune == 0.0
        && chans[ch].rpnMsb == chans[ch].rpnLsb == 127 && chans[ch].dataMsb == chans[ch].dataLsb == 0
        && forall k :: 0 <= k < 12 ==> chans[ch].tuning[k] == 0.0
    {
      this.c := c;
      var s := Initial(c, freq, gain, init);
      active, nvoices, notes, free, used := false, c.voices, map[], Range(c.voices), [];
      nfree, nused, info, queued, nqueued := c.voices, 0, s.info, {}, 0;
      lastgate, voices, chans, ports, triggers := s.lastgate, s.voices, s.chans, init, [];
    }

    method VoiceOff(i: int)
      requires 0 <= i < |voices|
      modifies `voices
      ensures voices == if c.hasGate then old(voices)[i := old(voices)[i].(gate := 0.0)] else old(voices)
    {
      if c.hasGate {
        voices := voices[i := voices[i].(gate := 0.0)];
      }
    }

    method VoiceOn(i: int, note: int, vel: int, ch: int)
      requires Shape(c, Current()) && 0 <= i < c.voices && IsKey((ch, note))
      modifies `voices, `triggers
      ensures Current() == Synth.VoiceOn(c, old(Current()), i, note, vel, ch)
    {
      var v := voices[i];
      if lastgate[i] == 1.0 && c.hasGate {
        // one sample with a closed gate
        v := v.(gate := 0.0, seen := v.seen + [0.0]);
      }
      if c.hasFreq {
        v := v.(freq := Frequency(c, chans[ch], note));
      }
      if c.hasGate {
        v := v.(gate := 1.0);
      }
      if c.hasGain {
        v := v.(gain := vel as real / 127.0);
      }
      var ctrl := v.ctrl;
      for j := 0 to |c.controls|
        invariant |ctrl| == |c.controls| && ctrl[..j] == chans[ch].midivals[..j]
      {
        ctrl := ctrl[j := chans[ch].midivals[j]];
      }
      assert ctrl == chans[ch].midivals;
      voices := voices[i := v.(ctrl := ctrl)];
      triggers := triggers + [i];
    }

    /** Erase a voice from the used list. */
    method EraseUsed(i: int) returns (found: bool)
      modifies `used
      ensures used == Remove(old(used), i) && found == (i in old(used))
    {
      var k := 0;
      while k < |used|
        invariant 0 <= k <= |used| && used == old(used) && i !in used[..k]
      {
        if used[k] == i {
          ghost var at := RemoveAt(used, i);
          used := used[..k] + used[k + 1..];
          return true;
        }
        k := k + 1;
      }
      RemoveAbsent(used, i);
      found := false;
    }

    method DropUsed(i: int)
      modifies `used, `nused
      ensures used == Remove(old(used), i) && nused == if i in old(used) then old(nused) - 1 else old(nused)
    {
      var found := EraseUsed(i);
      nused := if found then nused - 1 else nused;
    }

    method Retrigger(voice: int, note: int, vel: int, ch: int)
      requires Ok(c, Current()) && voice in used && IsKey((ch, note))
      modifies this
      ensures Current() == Synth.Retrigger(c, old(Current()), voice, note, vel, ch)
    {
      VoiceOff(voice);
      assert Current() == Synth.VoiceOff(c, old(Current()), voice);
      VoiceOn(voice, note, vel, ch);
      var found := EraseUsed(voice);
      used := used + [voice];
    }

    method TakeFree(note: int, vel: int, ch: int) returns (voice: int)
      requires Ok(c, Current()) && nfree > 0 && IsKey((ch, note))
      modifies `free, `nfree, `used, `nused, `info, `voices, `triggers, `notes
      ensures Current() == Synth.TakeFree(c, old(Current()), note, vel, ch) && voice == old(free)[0]
    {
      voice := Occupy(note, ch);
      VoiceOn(voice, note, vel, ch);
      notes := notes[(ch, note) := voice];
    }

    /** Move the first free voice to the used list. */
    method Occupy(note: int, ch: int) returns (voice: int)
      requires Ok(c, Current()) && nfree > 0 && IsKey((ch, note))
      modifies `free, `nfree, `used, `nused, `info
      ensures voice == old(free)[0] && 0 <= voice < c.voices && Shape(c, Current())
      ensures Current() == old(Current()).(free := old(free)[1..], nfree := old(nfree) - 1, used := old(used) + [voice],
                                           info := old(info)[voice := (ch, note)], nused := old(nused) + 1)
    {
      voice := free[0];
      assert voice in free;
      free, nfree := free[1..], nfree - 1;
      used := used + [voice];
      info := info[voice := (ch, note)];
      nused := nused + 1;
    }

    method Steal(note: int, vel: int, ch: int) returns (voice: int)
      requires Ok(c, Current()) && nused > 0 && IsKey((ch, note))
      modifies `used, `info, `voices, `triggers, `notes, `queued, `nqueued
      ensures Current() == Synth.Steal(c, old(Current()), note, vel, ch) && voice == old(used)[0]
    {
      voice := used[0];
      assert voice in used;
      Vacate(voice);
      used, info := used[1..] + [voice], info[voice := (ch, note)];
      VoiceOn(voice, note, vel, ch);
      notes := notes[(ch, note) := voice];
    }

    /** Silence a voice, clear its cell and take it out of the queue. */
    method Vacate(voice: int)
      requires Shape(c, Current()) && 0 <= voice < c.voices
      modifies `voices, `notes, `queued, `nqueued
      ensures Current() ==
        var s1 := Synth.VoiceOff(c, old(Current()), voice); Unqueue(s1.(notes := s1.notes - {s1.info[voice]}), voice)
    {
      VoiceOff(voice);
      notes := notes - {info[voice]};
      if voice in queued {
        queued, nqueued := queued - {voice}, nqueued - 1;
      }
    }

    method AllocVoice(ch: int, note: int, vel: int) returns (voice: int)
      requires Ok(c, Current()) && IsKey((ch, note))
      modifies this
      ensures Current() == Synth.AllocVoice(c, old(Current()), ch, note, vel)
      ensures Ok(c, Current()) && (ch, note) in notes && notes[(ch, note)] == voice
    {
      AllocOk(c, Current(), ch, note, vel);
      ghost var j := AllocTriggers(c, Current(), ch, note, vel);
      if (ch, note) in notes {
        voice := notes[(ch, note)];
        Retrigger(voice, note, vel, ch);
      } else if nfree > 0 {
        voice := TakeFree(note, vel, ch);
      } else {
        SomeVoiceIsUsed(c, Current());
        assert nused > 0;
        voice := Steal(note, vel, ch);
      }
    }

    /** Move a voice from the used to the free list. */
    method ReleaseVoice(i: int, cell: (int, int))
      requires Shape(c, Current()) && 0 <= i < c.voices && nfree < nvoices
      modifies `free, `nfree, `voices, `notes, `used, `nused
      ensures Current() == Release(c, old(Current()), i, cell)
    {
      assert nfree < nvoices;
      free, nfree := free + [i], nfree + 1;
      VoiceOff(i);
      notes := notes - {cell};
      DropUsed(i);
    }

    method DeallocVoice(ch: int, note: int) returns (voice: int)
      requires Ok(c, Current()) && IsKey((ch, note))
      modifies this
      ensures Current() == Synth.DeallocVoice(c, old(Current()), ch, note) && Ok(c, Current())
      ensures voice == if (ch, note) in old(notes) then old(notes[(ch, note)]) else -1
    {
      DeallocOk(c, Current(), ch, note);
      if (ch, note) !in notes {
        return -1;
      }
      voice := notes[(ch, note)];
      if lastgate[voice] == 0.0 && c.hasGate {
        if voice !in queued {
          queued := queued + {voice};
          nqueued := nqueued + 1;
          notes := notes - {(ch, note)};
        }
      } else {
        RoomToRelease(c, Current(), voice);
        ReleaseVoice(voice, (ch, note));
      }
    }

    /** Release a voice and take it out of the queue. */
    method ReleaseQueued(i: int)
      requires Ok(c, Current()) && i in used
      modifies this
      ensures Current() == Unqueue(Release(c, old(Current()), i, old(info[i])), i) && Ok(c, Current())
    {
      ReleaseOk(c, Current(), i);
      RoomToRelease(c, Current(), i);
      ReleaseVoice(i, info[i]);
      if i in queued {
        queued := queued - {i};
        nqueued := nqueued - 1;
      }
    }

    method QueuedRound(ghost s0: State, ghost rounds: seq<State>, i: nat)
      requires Ok(c, s0) && Rounds(c, s0, rounds) && i < s0.nvoices && Current() == rounds[i]
      modifies this
      ensures Current() == rounds[i + 1]
    {
      assert RoundAt(c, s0, rounds, i) && RoundAt(c, s0, rounds, i + 1);
      QueuedStep(c, s0, i);
      if i in queued {
        ReleaseQueued(i);
      }
    }

    method QueuedNotesOff()
      requires Ok(c, Current())
      modifies this
      ensures Current() == Synth.QueuedNotesOff(c, old(Current())) && Ok(c, Current())
    {
      QueuedNotesOffOk(c, Current());
      if nqueued > 0 {
        ReleaseQueuedVoices();
      }
    }

    method ReleaseQueuedVoices()
      requires Ok(c, Current())
      modifies this
      ensures Current() == QueuedDone(c, old(Current()), old(nvoices))
    {
      ghost var rounds := AllRounds(c, Current());
      AllQueuedRounds(Current(), rounds);
      LastRound(c, old(Current()), rounds);
    }

    method AllQueuedRounds(ghost s0: State, ghost rounds: seq<State>)
      requires Ok(c, s0) && Rounds(c, s0, rounds) && Current() == rounds[0] == s0
      modifies this
      ensures Current() == rounds[s0.nvoices]
    {
      var n := nvoices;
      for i := 0 to n
        invariant Current() == rounds[i]
      {
        QueuedRound(s0, rounds, i);
      }
    }

    method AllNotesOffChannel(ch: int)
      requires Ok(c, Current()) && IsChannel(ch)
      modifies this
      ensures Current() == Synth.AllNotesOffChannel(c, old(Current()), ch) && Ok(c, Current())
    {
      ghost var s0 := Current();
      AllNotesOffChannelOk(c, s0, ch);
      ghost var end := ReleaseAll(c, s0, OnChannel(s0.info, s0.used, ch));
      var k := 0;
      assert used[0..] == used;
      assert OffFrom(c, Current(), 0, ch) == end;
      while k < |used|
        invariant 0 <= k <= |used| && Ok(c, Current())
        invariant OffFrom(c, Current(), k, ch) == end
        decreases |used| - k
      {
        OffStep(c, Current(), k, ch);
        if info[used[k]].0 == ch {
          ReleaseQueued(used[k]);
        } else {
          k := k + 1;
        }
      }
      chans := chans[ch := chans[ch].(bend := 0.0)];
    }

    method UpdateVoices(ch: int)
      requires Shape(c, Current()) && IsChannel(ch) && forall i :: i in used ==> 0 <= i < c.voices
      modifies `voices
      ensures Current() == Synth.UpdateVoices(c, old(Current()), ch)
    {
      ghost var target := Synth.UpdateVoices(c, Current(), ch).voices;
      for k := 0 to |used|
        invariant |voices| == c.voices
        invariant forall i :: 0 <= i < c.voices ==> voices[i] == if i in used[..k] then target[i] else old(voices[i])
      {
        var i := used[k];
        assert i in used;
        if info[i].0 == ch && c.hasFreq {
          voices := voices[i := voices[i].(freq := Frequency(c, chans[ch], info[i].1))];
        }
      }
      assert used[..|used|] == used;
    }

    // -------------------------------------------------------------------------------------
    // Resets
    // -------------------------------------------------------------------------------------

    method CloseGates()
      requires Shape(c, Current())
      modifies `voices
      ensures voices == AllOff(c, old(Current()), nvoices)
    {
      for i := 0 to nvoices
        invariant |voices| == c.voices
        invariant forall j :: 0 <= j < c.voices ==>
          voices[j] == if j < i && c.hasGate then old(voices[j]).(gate := 0.0) else old(voices[j])
      {
        VoiceOff(i);
      }
      assert voices == AllOff(c, old(Current()), nvoices);
    }

    /** Empty note table, all voices free. */
    method ResetLists(n: nat)
      modifies `notes, `free, `nfree, `used, `nused
      ensures notes == map[] && free == Range(n) && nfree == n && used == [] && nused == 0
    {
      notes, free, nfree := map[], [], n;
      for i := 0 to n
        invariant free == Range(i) && notes == map[] && nfree == n
      {
        free := free + [i];
        assert free == Range(i + 1);
      }
      used, nused := [], 0;
    }

    method ResetBends()
      requires |chans| == CHANNELS
      modifies `chans
      ensures |chans| == CHANNELS && forall k :: 0 <= k < CHANNELS ==> chans[k] == old(chans[k]).(bend := 0.0)
    {
      for ch := 0 to CHANNELS
        invariant |chans| == CHANNELS
        invariant forall k :: 0 <= k < CHANNELS ==> chans[k] == if k < ch then old(chans[k]).(bend := 0.0) else old(chans[k])
      {
        chans := chans[ch := chans[ch].(bend := 0.0)];
      }
    }

    /** all_notes_off() */
    method AllNotesOff()
      requires Shape(c, Current()) && Ok(c, Current())
      modifies `voices, `chans, `notes, `free, `nfree, `used, `nused, `queued, `nqueued
      ensures Current() == Synth.AllNotesOff(c, old(Current()))
    {
      ghost var s := Current();
      CloseGates();
      ResetBends();
      assert chans == Synth.AllNotesOff(c, s).chans;
      ResetLists(nvoices);
      queued, nqueued := {}, 0;
    }

    method SetPolyphony(n: int)
      requires Ok(c, Current())
      modifies this
      ensures Current() == Synth.SetPolyphony(c, old(Current()), n)
    {
      if nvoices != n && n > 0 && n <= c.voices {
        CloseGates();
        nvoices := n;
        ResetLists(n);
      }
    }

    // -------------------------------------------------------------------------------------
    // Tuning and controllers
    // -------------------------------------------------------------------------------------

    method PitchBend(ch: int, lsb: int, msb: int)
      requires Ok(c, Current()) && IsChannel(ch)
      modifies `chans, `voices
      ensures Current() == Synth.PitchBend(c, old(Current()), ch, lsb, msb)
    {
      var t := SetBend(chans[ch], lsb + msb * 128);
      SetChannelOk(c, Current(), ch, t);
      chans := chans[ch := t];
      UpdateVoices(ch);
    }

    method ApplyRpn(ch: int)
      requires Ok(c, Current()) && IsChannel(ch)
      modifies `chans, `voices
      ensures Current() == Synth.ApplyRpn(c, old(Current()), ch)
    {
      var t := chans[ch];
      if t.rpnMsb == 0 {
        if t.rpnLsb == 0 {
          chans := chans[ch := SetBendRange(t)];
        } else if t.rpnLsb == 1 || t.rpnLsb == 2 {
          chans := chans[ch := if t.rpnLsb == 1 then SetFineTuning(t) else SetCoarseTuning(t)];
          UpdateVoices(ch);
        }
      }
    }

    /** Set control `j` of the used voices, on one channel or on all of them. */
    method SetZones(j: int, x: real, omni: bool, ch: int)
      requires Ok(c, Current()) && 0 <= j < |c.controls|
      modifies `voices
      ensures |voices| == c.voices
      ensures forall i :: 0 <= i < c.voices ==>
        voices[i] == if i in used && (omni || info[i].0 == ch)
                     then old(voices[i]).(ctrl := old(voices[i]).ctrl[j := x]) else old(voices[i])
    {
      for k := 0 to |used|
        invariant |voices| == c.voices
        invariant forall i :: 0 <= i < c.voices ==>
          voices[i] == if i in used[..k] && (omni || info[i].0 == ch)
                       then old(voices[i]).(ctrl := old(voices[i]).ctrl[j := x]) else old(voices[i])
      {
        var i := used[k];
        assert i in used && i !in used[..k];
        if omni || info[i].0 == ch {
          voices := voices[i := voices[i].(ctrl := voices[i].ctrl[j := x])];
        }
      }
      assert used[..|used|] == used;
    }

    method MapController(ch: int, num: int, val: int)
      requires Ok(c, Current()) && IsChannel(ch)
      modifies `chans, `voices
      ensures Current() == MappedController(c, old(Current()), ch, num, val)
    {
      if num in c.ctrlmap {
        ghost var s := Current();
        var j := c.ctrlmap[num];
        var x := ControlValue(c.controls[j], val);
        SetZones(j, x, false, ch);
        chans := chans[ch := chans[ch].(midivals := chans[ch].midivals[j := x])];
        assert voices == MappedController(c, s, ch, num, val).voices;
      }
    }

    method ControlChange(ch: int, num: int, val: int)
      requires Ok(c, Current()) && IsChannel(ch)
      modifies this
      ensures Current() == Controller(c, old(Current()), ch, num, val)
    {
      var t := chans[ch];
      if num == 120 || num == 123 {
        AllNotesOffChannel(ch);
      } else if num == 121 {
        chans := chans[ch := t.(dataMsb := 0, dataLsb := 0, rpnMsb := 0x7f, rpnLsb := 0x7f)];
      } else if num == 101 || num == 100 {
        chans := chans[ch := if num == 101 then t.(rpnMsb := val) else t.(rpnLsb := val)];
      } else if num == 6 || num == 38 || num == 96 || num == 97 {
        SetChannelOk(c, Current(), ch, DataEntry(t, num, val));
        chans := chans[ch := DataEntry(t, num, val)];
        ApplyRpn(ch);
      } else {
        MapController(ch, num, val);
      }
    }

    /** One note of the scale on all channels of the mask. */
    method TuneNote(mask: set<int>, i: nat, t: real)
      requires Shape(c, Current()) && i < 12
      modifies `chans
      ensures |chans| == CHANNELS
      ensures forall ch :: 0 <= ch < CHANNELS ==>
        chans[ch] == if ch in mask then old(chans[ch]).(tuning := old(chans[ch]).tuning[i := t]) else old(chans[ch])
    {
      for ch := 0 to CHANNELS
        invariant |chans| == CHANNELS
        invariant forall k :: 0 <= k < CHANNELS ==>
          chans[k] == if k < ch && k in mask
                      then old(chans[k]).(tuning := old(chans[k]).tuning[i := t]) else old(chans[k])
      {
        if ch in mask {
          chans := chans[ch := chans[ch].(tuning := chans[ch].tuning[i := t])];
        }
      }
    }

    method TuneChannels(mask: set<int>, tuning: seq<real>)
      requires Shape(c, Current()) && |tuning| == 12
      modifies `chans
      ensures Current() == OctaveTuning(c, old(Current()), mask, tuning, false)
    {
      ghost var s := Current();
      for i := 0 to 12
        invariant Shape(c, Current())
        invariant forall ch :: 0 <= ch < CHANNELS ==>
          chans[ch] == s.chans[ch].(tuning := chans[ch].tuning) && (ch !in mask ==> chans[ch] == s.chans[ch])
        invariant forall ch :: 0 <= ch < CHANNELS && ch in mask ==> chans[ch].tuning[..i] == tuning[..i]
      {
        ghost var before := chans;
        TuneNote(mask, i, tuning[i]);
        forall ch | 0 <= ch < CHANNELS && ch in mask ensures chans[ch].tuning[..i + 1] == tuning[..i + 1] {
          assert chans[ch].tuning == before[ch].tuning[i := tuning[i]];
          assert chans[ch].tuning[..i + 1] == before[ch].tuning[..i] + [tuning[i]];
        }
      }
      forall ch | 0 <= ch < CHANNELS && ch in mask ensures chans[ch] == s.chans[ch].(tuning := tuning) {
        assert chans[ch].tuning[..12] == chans[ch].tuning && tuning[..12] == tuning;
      }
      assert chans == OctaveTuning(c, s, mask, tuning, false).chans;
    }

    method TuneOctave(mask: set<int>, tuning: seq<real>, realtime: bool)
      requires Ok(c, Current()) && |tuning| == 12
      modifies `chans, `voices
      ensures Current() == OctaveTuning(c, old(Current()), mask, tuning, realtime)
    {
      TuneChannels(mask, tuning);
      if realtime {
        RetuneChannels(mask);
      }
    }

    method RetuneChannels(mask: set<int>)
      requires Ok(c, Current())
      modifies `voices
      ensures Current() == UpdateChannels(c, old(Current()), mask, |old(chans)|)
    {
      ghost var s1 := Current();
      for ch := 0 to |chans|
        invariant Current() == UpdateChannels(c, s1, mask, ch)
      {
        RetuneChannel(s1, mask, ch);
      }
    }

    method RetuneChannel(ghost s1: State, mask: set<int>, ch: nat)
      requires Ok(c, s1) && ch < CHANNELS && Current() == UpdateChannels(c, s1, mask, ch)
      requires used == s1.used
      modifies `voices
      ensures Current() == UpdateChannels(c, s1, mask, ch + 1)
    {
      if ch in mask {
        UpdateVoices(ch);
      }
    }

    method SetMidivals(j: int, x: real)
      requires |chans| == CHANNELS && forall ch :: 0 <= ch < CHANNELS ==> 0 <= j < |chans[ch].midivals|
      modifies `chans
      ensures |chans| == CHANNELS
      ensures forall ch :: 0 <= ch < CHANNELS ==>
        chans[ch] == old(chans[ch]).(midivals := old(chans[ch]).midivals[j := x])
    {
      for ch := 0 to CHANNELS
        invariant |chans| == CHANNELS
        invariant forall k :: 0 <= k < CHANNELS ==>
          chans[k] == if k < ch then old(chans[k]).(midivals := old(chans[k]).midivals[j := x]) else old(chans[k])
      {
        chans := chans[ch := chans[ch].(midivals := chans[ch].midivals[j := x])];
      }
    }

    method SetPort(j: int, x: real)
      requires Ok(c, Current()) && 0 <= j < |c.controls|
      modifies `voices, `chans, `ports
      ensures Current() == Synth.SetPort(c, old(Current()), j, x)
    {
      if x != ports[j] {
        ghost var s := Current();
        SetZones(j, x, true, 0);
        assert voices == Synth.SetPort(c, s, j, x).voices;
        SetMidivals(j, x);
        assert chans == Synth.SetPort(c, s, j, x).chans;
        ports := ports[j := x];
      }
    }

    // -------------------------------------------------------------------------------------
    // run()
    // -------------------------------------------------------------------------------------

    /** One MIDI message, by its bytes. */
    method ProcessMessage(data: seq<int>)
      requires Ok(c, Current()) && WellFormed(data)
      modifies this
      ensures Current() == Process(c, old(Current()), Decode(data))
    {
      var status, ch := data[0] / 16, data[0] % 16;
      if status == 0x9 && data[2] != 0 {
        var voice := AllocVoice(ch, data[1], data[2]);
      } else if status == 0x9 || status == 0x8 {
        var voice := DeallocVoice(ch, data[1]);
      } else if status == 0xe {
        PitchBend(ch, data[1], data[2]);
      } else if status == 0xb {
        ControlChange(ch, data[1], data[2]);
      } else if IsTuning(data) {
        var m := Decode(data);
        TuneOctave(m.mask, m.tuning, m.realtime);
      }
    }

    /** All voices compute `n` samples, and the gates they saw are kept. */
    method ComputeBlock(n: nat)
      requires Shape(c, Current())
      modifies `voices, `lastgate
      ensures Current() == Compute(c, old(Current()), n)
    {
      ghost var s := Current();
      for l := 0 to nvoices
        invariant |voices| == c.voices && lastgate == s.lastgate
        invariant forall i :: 0 <= i < c.voices ==>
          voices[i] == if i < l && n > 0 then s.voices[i].(seen := s.voices[i].seen + [s.voices[i].gate]) else s.voices[i]
      {
        if n > 0 {
          voices := voices[l := voices[l].(seen := voices[l].seen + [voices[l].gate])];
        }
      }
      assert voices == Compute(c, s, n).voices;
      if c.hasGate {
        for l := 0 to nvoices
          invariant |lastgate| == c.voices && voices == Compute(c, s, n).voices
          invariant forall i :: 0 <= i < c.voices ==> lastgate[i] == if i < l then s.voices[i].gate else s.lastgate[i]
        {
          lastgate := lastgate[l := voices[l].gate];
        }
      }
      assert lastgate == Compute(c, s, n).lastgate;
    }

    /** One transition: activate(), deactivate() and the parts of run() other than the MIDI messages. */
    method Perform(e: Step)
      requires Ok(c, Current()) && StepOk(c, Current(), e) && !e.Midi?
      modifies this
      ensures Current() == Apply(c, old(Current()), e)
    {
      match e {
        case StartBlock => QueuedNotesOff();
        case SetPoly(n) => SetPolyphony(n);
        case SetControl(j, x) => SetPort(j, x);
        case EndBlock(n) => ComputeBlock(n);
        case Activate => active := true;
        case Deactivate =>
          AllNotesOff();
          active := false;
      }
    }

    method Follow(e: Step, ghost states: seq<State>, ghost trace: seq<Step>, ghost k: nat)
      requires Path(c, states, trace) && k < |trace| && trace[k] == e && Current() == states[k] && !e.Midi?
      modifies this
      ensures Current() == states[k + 1]
    {
      assert Link(c, states, trace, k);
      Perform(e);
    }

    method HandleMessages(msgs: seq<seq<int>>, ghost states: seq<State>, ghost trace: seq<Step>, ghost from: nat)
      requires Path(c, states, trace) && from + |msgs| <= |trace| && Current() == states[from]
      requires forall k :: 0 <= k < |msgs| ==> WellFormed(msgs[k]) && trace[from + k] == Midi(Decode(msgs[k]))
      modifies this
      ensures Current() == states[from + |msgs|]
    {
      for k := 0 to |msgs|
        invariant Current() == states[from + k]
      {
        assert Link(c, states, trace, from + k);
        ProcessMessage(msgs[k]);
      }
    }

    method HandlePorts(portvals: seq<real>, ghost states: seq<State>, ghost trace: seq<Step>, ghost from: nat)
      requires Path(c, states, trace) && from + |portvals| <= |trace| && Current() == states[from]
      requires forall j :: 0 <= j < |portvals| ==> trace[from + j] == SetControl(j, portvals[j])
      modifies this
      ensures Current() == states[from + |portvals|]
    {
      for j := 0 to |portvals|
        invariant Current() == states[from + j]
      {
        Follow(SetControl(j, portvals[j]), states, trace, from + j);
      }
    }

    /** What an active plugin does in a block. */
    method RunActive(poly: int, msgs: seq<seq<int>>, portvals: seq<real>, samples: nat,
                     ghost states: seq<State>, ghost trace: seq<Step>)
      requires forall k :: 0 <= k < |msgs| ==> WellFormed(msgs[k])
      requires trace == RunSteps(true, poly, DecodeAll(msgs), portvals, samples) && Path(c, states, trace) && Current() == states[1]
      modifies this
      ensures Current() == states[|trace|]
    {
      Follow(SetPoly(poly), states, trace, 1);
      HandleMessages(msgs, states, trace, 2);
      HandlePorts(portvals, states, trace, 2 + |msgs|);
      Follow(EndBlock(samples), states, trace, |trace| - 1);
    }

    /** run(): release the queued voices, change the polyphony, handle the messages and the control ports, compute
        the samples. */
    method Run(poly: int, msgs: seq<seq<int>>, portvals: seq<real>, samples: nat) returns (ghost states: seq<State>)
      requires Ok(c, Current()) && |portvals| == |c.controls| && forall k :: 0 <= k < |msgs| ==> WellFormed(msgs[k])
      modifies this
      ensures var trace := RunSteps(old(active), poly, DecodeAll(msgs), portvals, samples);
        Legal(c, old(Current()), trace) && Current() == Execute(c, old(Current()), trace)
      ensures BlockRun(c, states, poly, msgs, portvals, samples)
      ensures states[0] == old(Current()) && states[|states| - 1] == Current()
    {
      ghost var trace := RunSteps(active, poly, DecodeAll(msgs), portvals, samples);
      states := BlockStates(c, Current(), poly, msgs, portvals, samples);
      QueuedKeepsActive(c, Current());
      QueuedNotesOff();
      if active {
        RunActive(poly, msgs, portvals, samples, states, trace);
      }
    }
  }
}
