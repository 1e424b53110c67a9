/** Every transition of the plugin keeps the voice allocation consistent. */
module SynthAllocation {
  import opened Sequences
  import opened Synth

  /** The allocator's assertion n_free < nvoices: a used voice leaves room on the free list. */
  lemma RoomToRelease(c: Config, s: State, i: int)
    requires Ok(c, s) && i in s.used
    ensures s.nfree < s.nvoices
  {
    var all := s.free + [i];
    NoDuplicatesAppend(s.free, i);
    forall k | 0 <= k < |all| ensures 0 <= all[k] < s.nvoices {
      assert all[k] in s.free || all[k] in s.used;
    }
    DistinctBound(all, 0, s.nvoices);
  }

  lemma RetriggerOk(c: Config, s: State, i: int, note: int, vel: int, ch: int)
    requires Ok(c, s) && i in s.used && IsKey((ch, note))
    ensures Ok(c, Retrigger(c, s, i, note, vel, ch))
  {
    RemoveFacts(s.used, i);
  }

  lemma TakeFreeOk(c: Config, s: State, note: int, vel: int, ch: int)
    requires Ok(c, s) && s.nfree > 0 && IsKey((ch, note)) && (ch, note) !in s.notes
    ensures Ok(c, TakeFree(c, s, note, vel, ch))
  {
    var i, s' := s.free[0], TakeFree(c, s, note, vel, ch);
    assert i in s.free;
    forall j ensures j in s.free <==> j == i || j in s'.free {}
    NoDuplicatesAppend(s.used, i);
  }

  lemma UnqueueCount(s: State, i: int)
    requires s.nqueued == |s.queued|
    ensures Unqueue(s, i).nqueued == |Unqueue(s, i).queued|
  {
  }

  lemma StealOk(c: Config, s: State, note: int, vel: int, ch: int)
    requires Ok(c, s) && s.nused > 0 && IsKey((ch, note)) && (ch, note) !in s.notes
    ensures Ok(c, Steal(c, s, note, vel, ch))
  {
    StealFields(c, s, note, vel, ch);
    Stolen(c, s, Steal(c, s, note, vel, ch), ch, note);
  }

  /** The first used voice goes to the end of the list and to the cell of the note. */
  lemma Stolen(c: Config, s: State, s': State, ch: int, note: int)
    requires Ok(c, s) && s.nused > 0 && IsKey((ch, note)) && (ch, note) !in s.notes
    requires Shape(c, s') && s'.nvoices == s.nvoices && s'.free == s.free && s'.nfree == s.nfree && s'.nused == s.nused
    requires var i := s.used[0];
      && 0 <= i < c.voices
      && s'.used == s.used[1..] + [i] && s'.info == s.info[i := (ch, note)]
      && s'.queued == s.queued - {i} && s'.nqueued == |s'.queued|
      && s'.notes == (s.notes - {s.info[i]})[(ch, note) := i]
    ensures Ok(c, s')
  {
    var i := s.used[0];
    assert i in s.used;
    assert forall j :: j in s.used <==> j in s'.used;
    NoDuplicatesAppend(s.used[1..], i);
    forall k | k in s'.notes
      ensures IsKey(k) && s'.notes[k] in s'.used && s'.notes[k] !in s'.queued && s'.info[s'.notes[k]] == k
    {
      if k != (ch, note) {
        assert k in s.notes && k != s.info[i];
      }
    }
  }

  lemma StealFields(c: Config, s: State, note: int, vel: int, ch: int)
    requires Ok(c, s) && s.nused > 0 && IsKey((ch, note))
    ensures var i, s' := s.used[0], Steal(c, s, note, vel, ch);
      && 0 <= i < c.voices
      && Shape(c, s') && s'.nvoices == s.nvoices && s'.free == s.free && s'.nfree == s.nfree && s'.nused == s.nused
      && s'.used == s.used[1..] + [i] && s'.info == s.info[i := (ch, note)]
      && s'.queued == s.queued - {i} && s'.nqueued == |s'.queued|
      && s'.notes == (s.notes - {s.info[i]})[(ch, note) := i]
  {
    var i := s.used[0];
    assert i in s.used;
    VacatedFields(c, s, i);
    var s1 := VoiceOff(c, s, i);
    var s2 := Unqueue(s1.(notes := s1.notes - {s1.info[i]}), i);
    StealEnd(c, s2.(used := s2.used[1..] + [i], info := s2.info[i := (ch, note)]), i, note, vel, ch);
  }

  lemma VacatedFields(c: Config, s: State, i: int)
    requires Shape(c, s) && 0 <= i < c.voices && s.nqueued == |s.queued|
    ensures var s1 := VoiceOff(c, s, i);
      var s2 := Unqueue(s1.(notes := s1.notes - {s1.info[i]}), i);
      && s2 == s.(voices := s2.voices, notes := s.notes - {s.info[i]}, queued := s.queued - {i}, nqueued := |s.queued - {i}|)
      && Shape(c, s2)
  {
    UnqueueCount(s, i);
    assert i !in s.queued ==> s.queued - {i} == s.queued;
  }

  /** Triggering a voice leaves the allocation alone. */
  lemma StealEnd(c: Config, s: State, i: int, note: int, vel: int, ch: int)
    requires Shape(c, s) && 0 <= i < c.voices && IsKey((ch, note))
    ensures var s' := VoiceOn(c, s, i, note, vel, ch); s' == s.(voices := s'.voices, triggers := s'.triggers)
  {
  }

  lemma AllocOk(c: Config, s: State, ch: int, note: int, vel: int)
    requires Ok(c, s) && IsKey((ch, note))
    ensures Ok(c, AllocVoice(c, s, ch, note, vel))
  {
    if (ch, note) in s.notes {
      RetriggerOk(c, s, s.notes[(ch, note)], note, vel, ch);
    } else if s.nfree > 0 {
      TakeFreeOk(c, s, note, vel, ch);
    } else {
      SomeVoiceIsUsed(c, s);
      StealOk(c, s, note, vel, ch);
    }
  }

  /** Releasing a used voice, queued or not. */
  lemma ReleaseOk(c: Config, s: State, i: int)
    requires Ok(c, s) && i in s.used
    ensures var s' := Unqueue(Release(c, s, i, s.info[i]), i);
      && Ok(c, s') && s'.info == s.info && s'.nvoices == s.nvoices
      && (forall j :: j in s'.used <==> j in s.used && j != i)
      && s'.queued == s.queued - {i}
  {
    ReleaseFields(c, s, i);
    RemoveFacts(s.used, i);
    NoDuplicatesAppend(s.free, i);
    var s' := Unqueue(Release(c, s, i, s.info[i]), i);
    forall j ensures j in s'.free || j in s'.used <==> 0 <= j < s.nvoices {
      assert j in s'.free <==> j in s.free || j == i;
    }
  }

  lemma ReleaseFields(c: Config, s: State, i: int)
    requires Ok(c, s) && i in s.used
    ensures var s' := Unqueue(Release(c, s, i, s.info[i]), i);
      && Shape(c, s') && s'.nvoices == s.nvoices && s'.free == s.free + [i] && s'.nfree == s.nfree + 1
      && s'.used == Remove(s.used, i) && s'.nused == s.nused - 1 && s'.info == s.info
      && s'.queued == s.queued - {i} && s'.nqueued == |s'.queued| && s'.notes == s.notes - {s.info[i]}
  {
    var s1 := Release(c, s, i, s.info[i]);
    assert s1.queued == s.queued && s1.nqueued == s.nqueued;
    UnqueueCount(s1, i);
    var s' := Unqueue(s1, i);
    assert s' == s1.(queued := s'.queued, nqueued := s'.nqueued);
  }

  lemma {:induction false} ReleaseAllOk(c: Config, s: State, list: seq<int>)
    requires Ok(c, s) && NoDuplicates(list) && forall i :: i in list ==> i in s.used
    ensures var s' := ReleaseAll(c, s, list);
      && Ok(c, s') && s'.info == s.info && s'.nvoices == s.nvoices
      && (forall j :: j in s'.used <==> j in s.used && j !in list)
      && (forall j :: j in s'.queued <==> j in s.queued && j !in list)
    decreases |list|
  {
    if list != [] {
      var i := list[0];
      assert i in list;
      ReleaseOk(c, s, i);
      var s1 := Unqueue(Release(c, s, i, s.info[i]), i);
      assert forall j :: j in list <==> j == i || j in list[1..];
      ReleaseAllOk(c, s1, list[1..]);
    }
  }

  lemma DeallocOk(c: Config, s: State, ch: int, note: int)
    requires Ok(c, s) && IsKey((ch, note))
    ensures Ok(c, DeallocVoice(c, s, ch, note))
  {
    if (ch, note) in s.notes {
      ReleaseOk(c, s, s.notes[(ch, note)]);
    }
  }

  /** queued_notes_off leaves no voice queued, so that a change of the polyphony may follow. */
  lemma QueuedNotesOffOk(c: Config, s: State)
    requires Ok(c, s)
    ensures Ok(c, QueuedNotesOff(c, s)) && QueuedNotesOff(c, s).queued == {}
  {
    if s.nqueued != 0 {
      ReleaseAllOk(c, s, QueuedBelow(s, s.nvoices));
    }
  }

  lemma AllNotesOffChannelOk(c: Config, s: State, ch: int)
    requires Ok(c, s) && IsChannel(ch)
    ensures var s' := AllNotesOffChannel(c, s, ch);
      Ok(c, s') && s'.info == s.info && forall i :: i in s'.used <==> i in s.used && s.info[i].0 != ch
  {
    ReleaseAllOk(c, s, OnChannel(s.info, s.used, ch));
  }

  lemma RangeFacts(n: nat)
    ensures NoDuplicates(Range(n)) && forall i :: i in Range(n) <==> 0 <= i < n
  {
    forall i | 0 <= i < n ensures i in Range(n) {
      assert Range(n)[i] == i;
    }
  }

  lemma ResetOk(c: Config, s: State)
    requires Ok(c, s)
    ensures Ok(c, AllNotesOff(c, s))
    ensures s.queued == {} ==> forall n :: Ok(c, SetPolyphony(c, s, n))
  {
    RangeFacts(s.nvoices);
    forall n: int | 0 < n <= c.voices ensures s.queued == {} ==> Ok(c, SetPolyphony(c, s, n)) {
      RangeFacts(n);
    }
  }

  /** Tuning and controller messages do not touch the allocation. */
  ghost predicate SameAllocation(s: State, s': State) {
    s'.(voices := s.voices, chans := s.chans, ports := s.ports) == s
  }

  lemma SameAllocationOk(c: Config, s: State, s': State)
    requires Ok(c, s) && Shape(c, s') && SameAllocation(s, s')
    ensures Ok(c, s')
  {
  }

  lemma RpnKeeps(c: Config, s: State, ch: int)
    requires Shape(c, s) && IsChannel(ch)
    ensures Shape(c, ApplyRpn(c, s, ch)) && SameAllocation(s, ApplyRpn(c, s, ch))
  {
  }

  lemma UpdateChannelsKeeps(c: Config, s: State, mask: set<int>, n: nat)
    requires Shape(c, s) && n <= CHANNELS
    ensures var s' := UpdateChannels(c, s, mask, n); s'.(voices := s.voices) == s
  {
  }

  lemma ControllerOk(c: Config, s: State, ch: int, num: int, val: int)
    requires Ok(c, s) && IsChannel(ch)
    ensures Ok(c, Controller(c, s, ch, num, val))
  {
    var t := s.chans[ch];
    if num != 120 && num != 123 {
      ControllerKeeps(c, s, ch, num, val);
      SameAllocationOk(c, s, Controller(c, s, ch, num, val));
    } else {
      AllNotesOffChannelOk(c, s, ch);
    }
  }

  lemma DataEntryKeeps(c: Config, s: State, ch: int, num: int, val: int)
    requires Shape(c, s) && IsChannel(ch)
    ensures SameAllocation(s, ApplyRpn(c, SetChannel(c, s, ch, DataEntry(s.chans[ch], num, val)), ch))
  {
    RpnKeeps(c, SetChannel(c, s, ch, DataEntry(s.chans[ch], num, val)), ch);
  }

  lemma MappedKeeps(c: Config, s: State, ch: int, num: int, val: int)
    requires Shape(c, s) && IsChannel(ch)
    ensures SameAllocation(s, MappedController(c, s, ch, num, val))
  {
  }

  lemma ControllerKeeps(c: Config, s: State, ch: int, num: int, val: int)
    requires Ok(c, s) && IsChannel(ch) && num != 120 && num != 123
    ensures SameAllocation(s, Controller(c, s, ch, num, val))
  {
    if num == 6 || num == 38 || num == 96 || num == 97 {
      DataEntryKeeps(c, s, ch, num, val);
    } else if num != 121 && num != 101 && num != 100 {
      MappedKeeps(c, s, ch, num, val);
    }
  }

  /** Every transition keeps the allocation consistent. */
  lemma ApplyOk(c: Config, s: State, e: Step)
    requires Ok(c, s) && StepOk(c, s, e)
    ensures Ok(c, Apply(c, s, e))
  {
    match e {
      case StartBlock => QueuedNotesOffOk(c, s);
      case SetPoly(n) => ResetOk(c, s);
      case Midi(m) =>
        match m {
          case NoteOn(ch, note, vel) => AllocOk(c, s, ch, note, vel);
          case NoteOff(ch, note) => DeallocOk(c, s, ch, note);
          case ControlChange(ch, num, val) => ControllerOk(c, s, ch, num, val);
          case Tuning(realtime, mask, tuning) =>
            if realtime {
              var s1 := OctaveTuning(c, s, mask, tuning, false);
              UpdateChannelsKeeps(c, s1, mask, |s1.chans|);
            }
          case _ =>
        }
      case Deactivate => ResetOk(c, s);
      case _ =>
    }
  }

  // ---------------------------------------------------------------------------------------
  // What the transitions do to the list of used voices
  // ---------------------------------------------------------------------------------------

  /** Voice `i` after it has been triggered for a note. */
  function Triggered(c: Config, s: State, i: int, ch: int, note: int, vel: int): Voice
    requires Shape(c, s) && 0 <= i < c.voices && IsKey((ch, note))
  {
    var v, t := s.voices[i], s.chans[ch];
    Voice(
      if c.hasFreq then c.cps(note as real + t.tune + t.tuning[note % 12] + t.bend) else v.freq,
      if c.hasGain then vel as real / 127.0 else v.gain,
      if c.hasGate then 1.0 else v.gate,
      t.midivals,
      if s.lastgate[i] == 1.0 && c.hasGate then v.seen + [0.0] else v.seen)
  }

  /** A note-on, whichever branch it takes, triggers one voice for the note and moves it to the end of
      the used list. */
  ghost predicate Triggers(c: Config, s: State, s': State, i: int, ch: int, note: int, vel: int)
    requires Shape(c, s) && IsKey((ch, note))
  {
    && 0 <= i < c.voices
    && s'.used == Remove(s.used, i) + [i]
    && s'.info == s.info[i := (ch, note)]
    && s'.voices == s.voices[i := Triggered(c, s, i, ch, note, vel)]
    && s'.triggers == s.triggers + [i]
    && s'.chans == s.chans && s'.lastgate == s.lastgate && s'.nvoices == s.nvoices
    && (ch, note) in s'.notes && s'.notes[(ch, note)] == i
    && s'.queued == s.queued - {i}
  }

  lemma RemoveFirst(s: seq<int>)
    requires s != []
    ensures Remove(s, s[0]) == s[1..]
  {
  }

  lemma AllocTriggers(c: Config, s: State, ch: int, note: int, vel: int) returns (i: int)
    requires Ok(c, s) && IsKey((ch, note))
    ensures Triggers(c, s, AllocVoice(c, s, ch, note, vel), i, ch, note, vel)
    ensures (ch, note) in s.notes ==> i == s.notes[(ch, note)]
    ensures (ch, note) !in s.notes && s.nfree > 0 ==> i == s.free[0]
    ensures (ch, note) !in s.notes && s.nfree <= 0 ==> s.used != [] && i == s.used[0]
  {
    if (ch, note) in s.notes {
      i := s.notes[(ch, note)];
      RetriggerTriggers(c, s, i, ch, note, vel);
    } else if s.nfree > 0 {
      i := s.free[0];
      assert i in s.free;
      RemoveAbsent(s.used, i);
    } else {
      SomeVoiceIsUsed(c, s);
      i := s.used[0];
      assert i in s.used;
      StealTriggers(c, s, ch, note, vel);
    }
  }

  lemma RetriggerTriggers(c: Config, s: State, i: int, ch: int, note: int, vel: int)
    requires Ok(c, s) && IsKey((ch, note)) && (ch, note) in s.notes && i == s.notes[(ch, note)]
    ensures Triggers(c, s, Retrigger(c, s, i, note, vel, ch), i, ch, note, vel)
  {
    assert s.info[i] == (ch, note);
    assert s.info[i := (ch, note)] == s.info;
    var v := VoiceOff(c, s, i).voices[i];
    assert s.voices[i := v][i := Triggered(c, s, i, ch, note, vel)] == s.voices[i := Triggered(c, s, i, ch, note, vel)];
  }

  /** Triggering a voice that has just been switched off. */
  lemma OffOn(c: Config, s: State, s1: State, i: int, ch: int, note: int, vel: int)
    requires Shape(c, s) && Shape(c, s1) && 0 <= i < c.voices && IsKey((ch, note))
    requires s1.voices == VoiceOff(c, s, i).voices && s1.chans == s.chans && s1.lastgate == s.lastgate && s1.triggers == s.triggers
    ensures var s' := VoiceOn(c, s1, i, note, vel, ch);
      s'.voices == s.voices[i := Triggered(c, s, i, ch, note, vel)] && s'.triggers == s.triggers + [i]
  {
  }

  lemma StealVoices(c: Config, s: State, ch: int, note: int, vel: int)
    requires Ok(c, s) && IsKey((ch, note)) && s.nused > 0
    ensures var i, s' := s.used[0], Steal(c, s, note, vel, ch);
      && 0 <= i < c.voices
      && s'.voices == s.voices[i := Triggered(c, s, i, ch, note, vel)] && s'.triggers == s.triggers + [i]
      && s'.chans == s.chans && s'.lastgate == s.lastgate
  {
    var i := s.used[0];
    assert i in s.used;
    var s1 := VoiceOff(c, s, i);
    var s2 := Unqueue(s1.(notes := s1.notes - {s1.info[i]}), i);
    OffOn(c, s, s2.(used := s2.used[1..] + [i], info := s2.info[i := (ch, note)]), i, ch, note, vel);
  }

  lemma StealTriggers(c: Config, s: State, ch: int, note: int, vel: int)
    requires Ok(c, s) && IsKey((ch, note)) && s.nused > 0
    ensures Triggers(c, s, Steal(c, s, note, vel, ch), s.used[0], ch, note, vel)
  {
    StealFields(c, s, note, vel, ch);
    RemoveFirst(s.used);
    StealVoices(c, s, ch, note, vel);
  }

  /** Voice `i` leaves the used list with a closed gate. */
  ghost predicate Drops(c: Config, s: State, s': State, i: int) {
    && 0 <= i < |s.voices|
    && s'.used == Remove(s.used, i)
    && s'.voices == s.voices[i := if c.hasGate then s.voices[i].(gate := 0.0) else s.voices[i]]
    && s'.info == s.info && s'.triggers == s.triggers && s'.chans == s.chans
    && s'.lastgate == s.lastgate && s'.nvoices == s.nvoices
  }

  lemma ReleaseDrops(c: Config, s: State, i: int)
    requires Ok(c, s) && i in s.used
    ensures Drops(c, s, Unqueue(Release(c, s, i, s.info[i]), i), i)
  {
  }

  /** Nothing that the voices or their order depend on changes. */
  ghost predicate Idles(s: State, s': State) {
    && s'.used == s.used && s'.voices == s.voices && s'.info == s.info && s'.triggers == s.triggers
    && s'.chans == s.chans && s'.lastgate == s.lastgate && s'.nvoices == s.nvoices
  }

  lemma DeallocEffect(c: Config, s: State, ch: int, note: int)
    requires Ok(c, s) && IsKey((ch, note))
    ensures var s' := DeallocVoice(c, s, ch, note);
      || Idles(s, s')
      || ((ch, note) in s.notes && Drops(c, s, s', s.notes[(ch, note)]))
  {
  }
}
