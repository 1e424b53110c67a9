/** The list of used voices is ordered by the time of the last trigger, so that stealing its front takes
    the voice that was triggered least recently. */
module SynthOrder {
  import opened Sequences
  import opened Synth
  import opened SynthAllocation

  /** When `x` was last triggered. */
  function LastTrigger(t: seq<int>, x: int): (k: int)
    ensures -1 <= k < |t|
    ensures k >= 0 ==> t[k] == x
    ensures forall j :: k < j < |t| ==> t[j] != x
  {
    if t == [] then -1
    else if t[|t| - 1] == x then |t| - 1
    else LastTrigger(t[..|t| - 1], x)
  }

  lemma LastTriggerAppend(t: seq<int>, y: int, x: int)
    ensures LastTrigger(t + [y], x) == if x == y then |t| else LastTrigger(t, x)
  {
    assert (t + [y])[..|t|] == t;
  }

  ghost predicate Sorted(used: seq<int>, t: seq<int>) {
    && (forall a :: 0 <= a < |used| ==> 0 <= LastTrigger(t, used[a]))
    && (forall a, b :: 0 <= a < b < |used| ==> LastTrigger(t, used[a]) < LastTrigger(t, used[b]))
  }

  ghost predicate Ordered(c: Config, s: State) {
    Ok(c, s) && Sorted(s.used, s.triggers)
  }

  lemma RemoveSorted(used: seq<int>, t: seq<int>, i: int)
    requires Sorted(used, t)
    ensures Sorted(Remove(used, i), t)
  {
    if i in used {
      var k := RemoveAt(used, i);
    } else {
      RemoveAbsent(used, i);
    }
  }

  lemma TriggerSorted(used: seq<int>, t: seq<int>, i: int)
    requires Sorted(used, t) && i !in used
    ensures Sorted(used + [i], t + [i])
  {
    forall a | 0 <= a < |used| ensures LastTrigger(t + [i], used[a]) == LastTrigger(t, used[a]) < |t| {
      LastTriggerAppend(t, i, used[a]);
    }
    LastTriggerAppend(t, i, i);
  }

  lemma TriggerKeepsOrder(c: Config, s: State, s': State, i: int, ch: int, note: int, vel: int)
    requires Ordered(c, s) && IsKey((ch, note)) && Ok(c, s') && Triggers(c, s, s', i, ch, note, vel)
    ensures Ordered(c, s')
  {
    RemoveFacts(s.used, i);
    RemoveSorted(s.used, s.triggers, i);
    TriggerSorted(Remove(s.used, i), s.triggers, i);
  }

  lemma {:induction false} ReleaseAllKeepsOrder(c: Config, s: State, list: seq<int>)
    requires Ordered(c, s) && NoDuplicates(list) && forall i :: i in list ==> i in s.used
    ensures Ordered(c, ReleaseAll(c, s, list))
    decreases |list|
  {
    if list != [] {
      var i := list[0];
      assert i in list;
      var s1 := Unqueue(Release(c, s, i, s.info[i]), i);
      ReleaseOk(c, s, i);
      ReleaseDrops(c, s, i);
      RemoveSorted(s.used, s.triggers, i);
      assert forall j :: j in list <==> j == i || j in list[1..];
      ReleaseAllKeepsOrder(c, s1, list[1..]);
    }
  }

  lemma MessageKeepsOrder(c: Config, s: State, m: Message)
    requires Ordered(c, s) && m.Valid()
    ensures Ordered(c, Process(c, s, m))
  {
    ApplyOk(c, s, Midi(m));
    match m {
      case NoteOn(ch, note, vel) =>
        var i := AllocTriggers(c, s, ch, note, vel);
        TriggerKeepsOrder(c, s, AllocVoice(c, s, ch, note, vel), i, ch, note, vel);
      case NoteOff(ch, note) =>
        DeallocEffect(c, s, ch, note);
        if (ch, note) in s.notes {
          RemoveSorted(s.used, s.triggers, s.notes[(ch, note)]);
        }
      case ControlChange(ch, num, val) =>
        if num == 120 || num == 123 {
          ReleaseAllKeepsOrder(c, s, OnChannel(s.info, s.used, ch));
        } else {
          ControllerKeeps(c, s, ch, num, val);
        }
      case Tuning(realtime, mask, tuning) =>
        if realtime {
          UpdateChannelsKeeps(c, OctaveTuning(c, s, mask, tuning, false), mask, |s.chans|);
        }
      case _ =>
    }
  }

  /** Every transition keeps the used voices in the order of their last trigger. */
  lemma ApplyKeepsOrder(c: Config, s: State, e: Step)
    requires Ordered(c, s) && StepOk(c, s, e)
    ensures Ordered(c, Apply(c, s, e))
  {
    ApplyOk(c, s, e);
    match e {
      case StartBlock =>
        if s.nqueued != 0 {
          ReleaseAllKeepsOrder(c, s, QueuedBelow(s, s.nvoices));
        }
      case Midi(m) => MessageKeepsOrder(c, s, m);
      case _ =>
    }
  }

  /** When all voices are in use, a new note takes the voice that was triggered least recently. */
  lemma StealsLeastRecent(c: Config, s: State, ch: int, note: int, vel: int) returns (i: int)
    requires Ordered(c, s) && IsKey((ch, note)) && (ch, note) !in s.notes && s.nfree == 0
    ensures AllocVoice(c, s, ch, note, vel).notes[(ch, note)] == i && i in s.used
    ensures forall j :: j in s.used && j != i ==> LastTrigger(s.triggers, i) < LastTrigger(s.triggers, j)
  {
    i := AllocTriggers(c, s, ch, note, vel);
    assert s.used[0] in s.used;
  }
}
