/** What every transition of the plugin changes, field by field, from the bytes of the messages on. */
module SynthEffects {
  import opened Sequences
  import opened Synth
  import opened SynthAllocation

  // ---------------------------------------------------------------------------------------
  // Notes
  // ---------------------------------------------------------------------------------------

  /** A note-on takes the voice that plays the note, or else the first free one, or else the first used one.  That
      voice moves to the end of the used list and gets the note's pitch, velocity and controllers and an open gate. */
  ghost predicate NoteOnEffect(c: Config, s: State, s': State, ch: int, note: int, vel: int)
    requires Ok(c, s) && IsKey((ch, note))
  {
    var key := (ch, note);
    (s.free == [] ==> s.used != []) &&
    var i := if key in s.notes then s.notes[key] else if s.free != [] then s.free[0] else s.used[0];
    && Triggers(c, s, s', i, ch, note, vel)
    && s'.free == (if key in s.notes || s.free == [] then s.free else s.free[1..])
    && s'.notes == (if key in s.notes then s.notes
                    else if s.free != [] then s.notes[key := i] else (s.notes - {s.info[i]})[key := i])
    && s'.ports == s.ports && s'.active == s.active
  }

  lemma AllocEffect(c: Config, s: State, ch: int, note: int, vel: int)
    requires Ok(c, s) && IsKey((ch, note))
    ensures NoteOnEffect(c, s, AllocVoice(c, s, ch, note, vel), ch, note, vel)
  {
    var i := AllocTriggers(c, s, ch, note, vel);
    if (ch, note) !in s.notes && s.nfree <= 0 {
      SomeVoiceIsUsed(c, s);
      StealFields(c, s, note, vel, ch);
      StealKeeps(c, s, ch, note, vel);
    }
  }

  lemma StealKeeps(c: Config, s: State, ch: int, note: int, vel: int)
    requires Ok(c, s) && s.nused > 0 && IsKey((ch, note))
    ensures var s' := Steal(c, s, note, vel, ch); s'.ports == s.ports && s'.active == s.active
  {
  }

  /** A note-off for a note in the table queues its voice if the last block ended with a closed gate; otherwise it closes
      the gate and appends the voice to the free list.  Other note-offs change nothing. */
  ghost predicate NoteOffEffect(c: Config, s: State, s': State, ch: int, note: int)
    requires Ok(c, s) && IsKey((ch, note))
  {
    var key := (ch, note);
    if key !in s.notes then s' == s
    else
      var i := s.notes[key];
      if s.lastgate[i] == 0.0 && c.hasGate then
        s' == s.(queued := s.queued + {i}, nqueued := s.nqueued + 1, notes := s.notes - {key})
      else Released(c, s, s', [i])
  }

  /** Exactly these voices close their gates and become free, in this order. */
  ghost predicate Released(c: Config, s: State, s': State, list: seq<int>)
    requires Shape(c, s) && forall i :: i in list ==> 0 <= i < c.voices
  {
    && s'.free == s.free + list && s'.nfree == s.nfree + |list|
    && (forall i :: i in s'.used <==> i in s.used && i !in list) && s'.nused == s.nused - |list|
    && (forall i :: i in s'.queued <==> i in s.queued && i !in list)
    && (forall k :: k in s'.notes ==> k in s.notes && s'.notes[k] == s.notes[k] && forall i :: i in list ==> s.info[i] != k)
    && (forall k :: k in s.notes && (forall i :: i in list ==> s.info[i] != k) ==> k in s'.notes)
    && |s'.voices| == c.voices
    && (forall i :: 0 <= i < c.voices ==>
          s'.voices[i] == if i in list && c.hasGate then s.voices[i].(gate := 0.0) else s.voices[i])
    && s' == s.(free := s'.free, nfree := s'.nfree, used := s'.used, nused := s'.nused, queued := s'.queued,
                nqueued := s'.nqueued, notes := s'.notes, voices := s'.voices)
  }

  lemma ReleaseEffect(c: Config, s: State, i: int)
    requires Ok(c, s) && i in s.used
    ensures Released(c, s, Unqueue(Release(c, s, i, s.info[i]), i), [i])
  {
    var s' := Unqueue(Release(c, s, i, s.info[i]), i);
    ReleaseFields(c, s, i);
    ReleaseDrops(c, s, i);
    RemoveFacts(s.used, i);
    ReleaseKeeps(c, s, i);
    ReleasedOne(c, s, s', i);
  }

  lemma ReleaseKeeps(c: Config, s: State, i: int)
    requires Ok(c, s) && i in s.used
    ensures var s' := Unqueue(Release(c, s, i, s.info[i]), i); s'.active == s.active && s'.ports == s.ports
  {
  }

  lemma ReleasedOne(c: Config, s: State, s': State, i: int)
    requires Shape(c, s) && 0 <= i < c.voices && Drops(c, s, s', i)
    requires s'.free == s.free + [i] && s'.nfree == s.nfree + 1 && s'.nused == s.nused - 1 && s'.queued == s.queued - {i}
    requires s'.notes == s.notes - {s.info[i]} && s'.active == s.active && s'.ports == s.ports
    requires forall j :: j in s'.used <==> j in s.used && j != i
    ensures Released(c, s, s', [i])
  {
    assert i in [i];
  }

  lemma DeallocEffects(c: Config, s: State, ch: int, note: int)
    requires Ok(c, s) && IsKey((ch, note))
    ensures NoteOffEffect(c, s, DeallocVoice(c, s, ch, note), ch, note)
  {
    if (ch, note) in s.notes {
      ReleaseEffect(c, s, s.notes[(ch, note)]);
    }
  }

  lemma ReleasedNothing(c: Config, s: State)
    requires Ok(c, s)
    ensures Released(c, s, s, [])
  {
  }

  lemma ReleasedMore(c: Config, s: State, s1: State, s2: State, i: int, list: seq<int>)
    requires Shape(c, s) && Shape(c, s1) && 0 <= i < c.voices && forall j :: j in list ==> 0 <= j < c.voices
    requires Released(c, s, s1, [i]) && Released(c, s1, s2, list)
    ensures Released(c, s, s2, [i] + list)
  {
    var all := [i] + list;
    assert forall j :: j in all <==> j == i || j in list;
    assert s2.free == s.free + all;
    forall k | k in s2.notes ensures k in s.notes && s2.notes[k] == s.notes[k] && forall j :: j in all ==> s.info[j] != k {
      assert k in s1.notes;
      assert i in [i];
    }
  }

  lemma {:induction false} ReleaseAllEffect(c: Config, s: State, list: seq<int>)
    requires Ok(c, s) && NoDuplicates(list) && forall i :: i in list ==> i in s.used
    ensures Released(c, s, ReleaseAll(c, s, list), list)
    decreases |list|
  {
    if list == [] {
      ReleasedNothing(c, s);
    } else {
      var i := list[0];
      assert i in list;
      var s1 := Unqueue(Release(c, s, i, s.info[i]), i);
      ReleaseOk(c, s, i);
      ReleaseEffect(c, s, i);
      assert forall j :: j in list <==> j == i || j in list[1..];
      ReleaseAllEffect(c, s1, list[1..]);
      ReleasedMore(c, s, s1, ReleaseAll(c, s1, list[1..]), i, list[1..]);
      assert list == [i] + list[1..];
    }
  }

  ghost predicate Increasing(list: seq<int>) {
    forall a, b :: 0 <= a < b < |list| ==> list[a] < list[b]
  }

  /** queued_notes_off: exactly the queued voices are released, the lower ones first. */
  ghost predicate QueuedOffEffect(c: Config, s: State, s': State)
    requires Ok(c, s)
  {
    exists list ::
      && Increasing(list) && (forall i :: i in list <==> i in s.queued)
      && (forall i :: i in list ==> 0 <= i < c.voices) && Released(c, s, s', list)
  }

  lemma {:induction false} QueuedIncreasing(s: State, n: nat)
    ensures Increasing(QueuedBelow(s, n))
  {
    if n > 0 {
      QueuedIncreasing(s, n - 1);
      var below := QueuedBelow(s, n - 1);
      assert forall a :: 0 <= a < |below| ==> below[a] in below;
    }
  }

  lemma {:induction false} NoneQueued(s: State, n: nat)
    requires s.queued == {}
    ensures QueuedBelow(s, n) == []
  {
    if n > 0 {
      NoneQueued(s, n - 1);
    }
  }

  lemma QueuedEffect(c: Config, s: State)
    requires Ok(c, s)
    ensures QueuedOffEffect(c, s, QueuedNotesOff(c, s))
  {
    var list := QueuedBelow(s, s.nvoices);
    assert forall i :: i in list <==> i in s.queued;
    QueuedIncreasing(s, s.nvoices);
    if s.nqueued == 0 {
      ReleasedNothing(c, s);
      NoneQueued(s, s.nvoices);
    } else {
      ReleaseAllEffect(c, s, list);
    }
  }

  /** All notes of a channel off: exactly its used voices are released, in the order of the used list, and its bend is
      reset. */
  ghost predicate ChannelOffEffect(c: Config, s: State, s': State, ch: int)
    requires Ok(c, s) && IsChannel(ch)
  {
    && s'.chans == s.chans[ch := s.chans[ch].(bend := 0.0)]
    && exists list ::
      && InOrder(list, s.used) && (forall i :: i in list <==> i in s.used && s.info[i].0 == ch)
      && (forall i :: i in list ==> 0 <= i < c.voices) && Released(c, s, s'.(chans := s.chans), list)
  }

  lemma OnChannelMembers(info: seq<(int, int)>, list: seq<int>, ch: int, r: seq<int>)
    requires (forall i :: i in list ==> 0 <= i < |info|) && r == OnChannel(info, list, ch)
    ensures forall a :: 0 <= a < |r| ==> r[a] in list
  {
    forall a | 0 <= a < |r| ensures r[a] in list {
      var i := r[a];
      assert i in r;
      assert i in list && info[i].0 == ch;
    }
  }

  lemma {:induction false} OnChannelInOrder(info: seq<(int, int)>, used: seq<int>, ch: int)
    requires NoDuplicates(used) && forall i :: i in used ==> 0 <= i < |info|
    ensures InOrder(OnChannel(info, used, ch), used)
  {
    if used != [] {
      var rest := used[1..];
      assert used[0] in used && forall i :: i in rest ==> i in used;
      OnChannelInOrder(info, rest, ch);
      var list := OnChannel(info, rest, ch);
      OnChannelMembers(info, rest, ch, list);
      InOrderSkip(list, used);
      if info[used[0]].0 == ch {
        InOrderTake(list, used);
      } else {
        assert OnChannel(info, used, ch) == list;
      }
    }
  }

  lemma ChannelOffEffects(c: Config, s: State, ch: int)
    requires Ok(c, s) && IsChannel(ch)
    ensures ChannelOffEffect(c, s, AllNotesOffChannel(c, s, ch), ch)
  {
    var list := OnChannel(s.info, s.used, ch);
    OnChannelInOrder(s.info, s.used, ch);
    ReleaseAllEffect(c, s, list);
    var s1, s' := ReleaseAll(c, s, list), AllNotesOffChannel(c, s, ch);
    assert s'.(chans := s.chans) == s1;
  }
}
