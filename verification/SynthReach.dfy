/** When is the note-off of a running voice honoured? */
module SynthReach {
  import opened Sequences
  import opened Synth
  import opened SynthAllocation

  /** Every running voice that is not queued can be found through its cell of the note table. */
  ghost predicate Reachable(c: Config, s: State) {
    && Ok(c, s)
    && forall i :: i in s.used && i !in s.queued ==> s.info[i] in s.notes && s.notes[s.info[i]] == i
  }

  /** In addition no two used voices play the same note. */
  ghost predicate Tidy(c: Config, s: State) {
    && Reachable(c, s)
    && forall i, j :: i in s.used && j in s.used && i != j ==> s.info[i] != s.info[j]
  }

  /** An earlier voice for the note is still queued, and is not the one about to be stolen. */
  ghost predicate Pending(c: Config, s: State, key: (int, int))
    requires Ok(c, s)
  {
    exists j :: j in s.queued && s.info[j] == key && !(s.nfree == 0 && s.used[0] == j)
  }

  /** The next note-off for the note of a reachable voice releases or queues that voice. */
  lemma NoteOffIsHonoured(c: Config, s: State, i: int)
    requires Reachable(c, s) && i in s.used && i !in s.queued
    ensures var s' := DeallocVoice(c, s, s.info[i].0, s.info[i].1);
      if s.lastgate[i] == 0.0 && c.hasGate then i in s'.queued else i !in s'.used && i in s'.free
  {
    ReleaseOk(c, s, i);
    ReleaseFields(c, s, i);
    assert s.free + [i] == (s.free + [i])[..|s.free|] + [i];
  }

  lemma ReleaseTidy(c: Config, s: State, i: int)
    requires Tidy(c, s) && i in s.used
    ensures Tidy(c, Unqueue(Release(c, s, i, s.info[i]), i))
  {
    ReleaseOk(c, s, i);
    ReleaseFields(c, s, i);
  }

  lemma {:induction false} ReleaseAllTidy(c: Config, s: State, list: seq<int>)
    requires Tidy(c, s) && NoDuplicates(list) && forall i :: i in list ==> i in s.used
    ensures Tidy(c, ReleaseAll(c, s, list))
    decreases |list|
  {
    if list != [] {
      var i := list[0];
      assert i in list;
      ReleaseTidy(c, s, i);
      ReleaseOk(c, s, i);
      assert forall j :: j in list <==> j == i || j in list[1..];
      ReleaseAllTidy(c, Unqueue(Release(c, s, i, s.info[i]), i), list[1..]);
    }
  }

  /** A voice for the note that is not in the table must be queued. */
  lemma SameNoteIsPending(c: Config, s: State, key: (int, int), j: int)
    requires Tidy(c, s) && key !in s.notes && j in s.used && s.info[j] == key && !(s.nfree == 0 && s.used[0] == j)
    ensures Pending(c, s, key)
  {
    assert j in s.queued;
  }

  lemma AllocTidy(c: Config, s: State, ch: int, note: int, vel: int)
    requires Tidy(c, s) && IsKey((ch, note)) && !Pending(c, s, (ch, note))
    ensures Tidy(c, AllocVoice(c, s, ch, note, vel))
  {
    AllocOk(c, s, ch, note, vel);
    var i := AllocTriggers(c, s, ch, note, vel);
    var s' := AllocVoice(c, s, ch, note, vel);
    forall j | j in s.used && j != i ensures s.info[j] != (ch, note) {
      OtherNotes(c, s, ch, note, vel, i, j);
    }
    forall j | j in s.used && j !in s.queued && j != i ensures s.info[j] in s'.notes && s'.notes[s.info[j]] == j {
      assert s.info[j] in s.notes && s.notes[s.info[j]] == j;
      OtherCellsKept(c, s, ch, note, vel, i, j);
    }
    TriggerTidy(c, s, s', i, ch, note, vel);
  }

  lemma OtherNotes(c: Config, s: State, ch: int, note: int, vel: int, i: int, j: int)
    requires Tidy(c, s) && IsKey((ch, note)) && !Pending(c, s, (ch, note))
    requires (ch, note) in s.notes ==> i == s.notes[(ch, note)]
    requires (ch, note) !in s.notes && s.nfree <= 0 ==> s.used != [] && i == s.used[0]
    requires j in s.used && j != i
    ensures s.info[j] != (ch, note)
  {
    if s.info[j] == (ch, note) && (ch, note) !in s.notes {
      SameNoteIsPending(c, s, (ch, note), j);
    }
  }

  lemma TriggerTidy(c: Config, s: State, s': State, i: int, ch: int, note: int, vel: int)
    requires Tidy(c, s) && IsKey((ch, note)) && Ok(c, s') && Triggers(c, s, s', i, ch, note, vel)
    requires forall j :: j in s.used && j != i ==> s.info[j] != (ch, note)
    requires forall j :: j in s.used && j !in s.queued && j != i ==> s.info[j] in s'.notes && s'.notes[s.info[j]] == j
    ensures Tidy(c, s')
  {
    RemoveFacts(s.used, i);
    assert forall j :: j in s'.used <==> j == i || j in s.used;
  }

  lemma OtherCellsKept(c: Config, s: State, ch: int, note: int, vel: int, i: int, j: int)
    requires Tidy(c, s) && IsKey((ch, note)) && Triggers(c, s, AllocVoice(c, s, ch, note, vel), i, ch, note, vel)
    requires j in s.used && j != i && s.info[j] != (ch, note) && s.info[j] in s.notes && s.notes[s.info[j]] == j
    ensures var s' := AllocVoice(c, s, ch, note, vel); s.info[j] in s'.notes && s'.notes[s.info[j]] == j
  {
    if (ch, note) !in s.notes && s.nfree <= 0 {
      SomeVoiceIsUsed(c, s);
      StealFields(c, s, note, vel, ch);
      assert s.used[0] in s.used;
      assert i == s.used[0] by {
        assert Steal(c, s, note, vel, ch).notes[(ch, note)] == s.used[0];
      }
    }
  }

  lemma DeallocTidy(c: Config, s: State, ch: int, note: int)
    requires Tidy(c, s) && IsKey((ch, note))
    ensures Tidy(c, DeallocVoice(c, s, ch, note))
  {
    DeallocOk(c, s, ch, note);
    if (ch, note) in s.notes {
      ReleaseTidy(c, s, s.notes[(ch, note)]);
    }
  }

  lemma QueuedNotesOffTidy(c: Config, s: State)
    requires Tidy(c, s)
    ensures Tidy(c, QueuedNotesOff(c, s))
  {
    if s.nqueued != 0 {
      ReleaseAllTidy(c, s, QueuedBelow(s, s.nvoices));
    }
  }

  /** Releasing voices clears their cells and fills none. */
  lemma {:induction false} ReleaseAllClears(c: Config, s: State, list: seq<int>, j: int)
    requires Shape(c, s) && j in list && forall i :: i in list ==> 0 <= i < c.voices
    ensures s.info[j] !in ReleaseAll(c, s, list).notes
    decreases |list|
  {
    var i := list[0];
    assert i in list;
    var s1 := Unqueue(Release(c, s, i, s.info[i]), i);
    assert forall k :: k in list <==> k == i || k in list[1..];
    if j in list[1..] {
      ReleaseAllClears(c, s1, list[1..], j);
    } else {
      ReleaseAllFillsNone(c, s1, list[1..], s.info[j]);
    }
  }

  lemma {:induction false} ReleaseAllFillsNone(c: Config, s: State, list: seq<int>, key: (int, int))
    requires Shape(c, s) && key !in s.notes && forall i :: i in list ==> 0 <= i < c.voices
    ensures key !in ReleaseAll(c, s, list).notes
    decreases |list|
  {
    if list != [] {
      var i := list[0];
      assert i in list && forall k :: k in list[1..] ==> k in list;
      ReleaseAllFillsNone(c, Unqueue(Release(c, s, i, s.info[i]), i), list[1..], key);
    }
  }

  /** A note-on in a tidy state is still reachable when the next block has released the queued voices if
      and only if no earlier voice for the same note was pending. */
  lemma ReachableIff(c: Config, s: State, ch: int, note: int, vel: int)
    requires Tidy(c, s) && IsKey((ch, note))
    ensures Ok(c, AllocVoice(c, s, ch, note, vel))
    ensures Reachable(c, QueuedNotesOff(c, AllocVoice(c, s, ch, note, vel))) <==> !Pending(c, s, (ch, note))
  {
    AllocOk(c, s, ch, note, vel);
    if Pending(c, s, (ch, note)) {
      PendingLosesNote(c, s, ch, note, vel);
    } else {
      AllocTidy(c, s, ch, note, vel);
      QueuedNotesOffTidy(c, AllocVoice(c, s, ch, note, vel));
    }
  }

  lemma PendingLosesNote(c: Config, s: State, ch: int, note: int, vel: int)
    requires Tidy(c, s) && IsKey((ch, note)) && Pending(c, s, (ch, note))
    ensures Ok(c, AllocVoice(c, s, ch, note, vel))
    ensures !Reachable(c, QueuedNotesOff(c, AllocVoice(c, s, ch, note, vel)))
  {
    AllocOk(c, s, ch, note, vel);
    var key := (ch, note);
    var j :| j in s.queued && s.info[j] == key && !(s.nfree == 0 && s.used[0] == j);
    var i := AllocTriggers(c, s, ch, note, vel);
    var s1 := AllocVoice(c, s, ch, note, vel);
    assert key !in s.notes;
    assert i != j;
    assert j in s1.queued && s1.nqueued != 0;
    assert i in s1.used && i !in s1.queued;
    QueuedOffLosesNote(c, s1, i, j);
  }

  /** The deferred note-off of voice `j` clears the cell that now belongs to voice `i`. */
  lemma QueuedOffLosesNote(c: Config, s: State, i: int, j: int)
    requires Ok(c, s) && i in s.used && i !in s.queued && j in s.queued && s.info[i] == s.info[j]
    ensures !Reachable(c, QueuedNotesOff(c, s))
  {
    var list := QueuedBelow(s, s.nvoices);
    ReleaseAllOk(c, s, list);
    ReleaseAllClears(c, s, list, j);
    assert s.info[i] !in QueuedNotesOff(c, s).notes;
  }
}
