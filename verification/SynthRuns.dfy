/** The guarantees of the synth plugin over every run. */
module SynthRuns {
  import opened Sequences
  import opened Synth
  import opened SynthAllocation
  import opened SynthZones
  import opened SynthGate
  import opened SynthOrder
  import opened SynthReach

  /** Every transition of the trace is possible where it is taken. */
  ghost predicate Legal(c: Config, s: State, trace: seq<Step>)
    requires Ok(c, s)
    decreases |trace|
  {
    trace == [] ||
    (StepOk(c, s, trace[0]) && (ApplyOk(c, s, trace[0]); Legal(c, Apply(c, s, trace[0]), trace[1..])))
  }

  ghost function Execute(c: Config, s: State, trace: seq<Step>): (s': State)
    requires Ok(c, s) && Legal(c, s, trace)
    ensures Ok(c, s')
    decreases |trace|
  {
    if trace == [] then s
    else
      ApplyOk(c, s, trace[0]);
      Execute(c, Apply(c, s, trace[0]), trace[1..])
  }

  ghost function StaleAfter(c: Config, s: State, trace: seq<Step>, stale: set<int>): set<int>
    requires Ok(c, s) && Legal(c, s, trace)
    decreases |trace|
  {
    if trace == [] then stale
    else
      ApplyOk(c, s, trace[0]);
      StaleAfter(c, Apply(c, s, trace[0]), trace[1..], Stale(c, s, stale, trace[0]))
  }

  /** A tuning message that is not in real time leaves these channels out of tune. */
  ghost predicate Detunes(e: Step, ch: int) {
    e.Midi? && e.m.Tuning? && !e.m.realtime && ch in e.m.mask
  }

  /** A pitch bend or all notes off on the channel, or a real-time tuning message, puts it in tune again. */
  ghost predicate Refreshes(e: Step, ch: int) {
    && e.Midi?
    && match e.m
       case Bend(k, _, _) => k == ch
       case ControlChange(k, num, _) => k == ch && (num == 120 || num == 123)
       case Tuning(realtime, mask, _) => realtime && ch in mask
       case _ => false
  }

  /** A channel is out of tune only after a tuning message for it that was not in real time, and only until the next
      message that puts it in tune again. */
  lemma {:induction false} StaleSince(c: Config, s: State, trace: seq<Step>, stale: set<int>, ch: int) returns (k: int)
    requires Ok(c, s) && Legal(c, s, trace) && ch in StaleAfter(c, s, trace, stale)
    ensures -1 <= k < |trace| && (if k < 0 then ch in stale else Detunes(trace[k], ch))
    ensures forall j :: k < j < |trace| ==> !Refreshes(trace[j], ch)
    decreases |trace|
  {
    k := -1;
    if trace != [] {
      ApplyOk(c, s, trace[0]);
      var k' := StaleSince(c, Apply(c, s, trace[0]), trace[1..], Stale(c, s, stale, trace[0]), ch);
      k := k' + 1;
      if k' < 0 && !Detunes(trace[0], ch) {
        k := -1;
      }
      forall j | k < j < |trace| ensures !Refreshes(trace[j], ch) {
        if j > 0 {
          assert trace[j] == trace[1..][j - 1];
        }
      }
    }
  }

  /** No voice has computed anything yet. */
  function Deaf(c: Config): (ears: seq<Ear>)
    ensures |ears| == c.voices && Attentive(ears)
  {
    seq(c.voices, _ => Ear(false, false))
  }

  /** What is known about the voices after a trace. */
  ghost function EarsAfter(c: Config, s: State, trace: seq<Step>, ears: seq<Ear>): (r: seq<Ear>)
    requires Ok(c, s) && Legal(c, s, trace)
    ensures |r| == |ears|
    decreases |trace|
  {
    if trace == [] then ears
    else
      ApplyOk(c, s, trace[0]);
      EarsAfter(c, Apply(c, s, trace[0]), trace[1..], HearAll(c, s, trace[0], ears))
  }

  lemma InitialOk(c: Config, freq: real, gain: real, init: seq<real>)
    requires c.Valid() && |init| == |c.controls|
    ensures var s := Initial(c, freq, gain, init);
      Ok(c, s) && Zones(c, s, {}) && Gates(c, s, Deaf(c)) && SynthOrder.Ordered(c, s) && Tidy(c, s)
  {
    RangeFacts(c.voices);
    var s := Initial(c, freq, gain, init);
    if c.hasGate {
      forall i | 0 <= i < c.voices ensures Gate(c, s, i, Deaf(c)[i]) {}
    }
  }

  /** After every run: the allocation is consistent, the zones of every used voice are those of its
      channel and note (unless the channel was retuned without notice), and the used voices are in the
      order of their last trigger. */
  lemma {:induction false} RunKeepsAll(c: Config, s: State, trace: seq<Step>, stale: set<int>)
    requires Zones(c, s, stale) && SynthOrder.Ordered(c, s) && Legal(c, s, trace)
    ensures var s' := Execute(c, s, trace);
      Zones(c, s', StaleAfter(c, s, trace, stale)) && SynthOrder.Ordered(c, s')
    decreases |trace|
  {
    if trace != [] {
      var e := trace[0];
      ApplyOk(c, s, e);
      ApplyKeepsZones(c, s, e, stale);
      ApplyKeepsOrder(c, s, e);
      RunKeepsAll(c, Apply(c, s, e), trace[1..], Stale(c, s, stale, e));
    }
  }

  /** After every run a gate is open exactly when its voice is used. */
  lemma {:induction false} RunKeepsGates(c: Config, s: State, trace: seq<Step>, ears: seq<Ear>)
    requires Gates(c, s, ears) && Legal(c, s, trace)
    ensures Gates(c, Execute(c, s, trace), EarsAfter(c, s, trace, ears))
    decreases |trace|
  {
    if trace != [] {
      ApplyOk(c, s, trace[0]);
      ApplyKeepsGates(c, s, ears, trace[0]);
      RunKeepsGates(c, Apply(c, s, trace[0]), trace[1..], HearAll(c, s, trace[0], ears));
    }
  }

  /** Runs without empty blocks miss nothing. */
  lemma {:induction false} RunsAttentively(c: Config, s: State, trace: seq<Step>, ears: seq<Ear>)
    requires Ok(c, s) && Legal(c, s, trace) && Attentive(ears)
    requires forall k :: 0 <= k < |trace| && trace[k].EndBlock? ==> trace[k].samples > 0
    ensures Attentive(EarsAfter(c, s, trace, ears))
    decreases |trace|
  {
    if trace != [] {
      ApplyOk(c, s, trace[0]);
      HearsAttentively(c, s, trace[0], ears);
      RunsAttentively(c, Apply(c, s, trace[0]), trace[1..], HearAll(c, s, trace[0], ears));
    }
  }

  /** After every run of a fresh plugin, the next note-on is a rising edge for the synth exactly when it is not the
      case that its voice was open in the last block with samples, has computed no closed sample since, and was closed
      at the end of an empty block after that. */
  lemma OnsetAfterRun(c: Config, freq: real, gain: real, init: seq<real>, trace: seq<Step>, ch: int, note: int, vel: int)
      returns (i: int)
    requires c.Valid() && c.hasGate && |init| == |c.controls| && IsKey((ch, note))
    requires Ok(c, Initial(c, freq, gain, init)) && Legal(c, Initial(c, freq, gain, init), trace)
    ensures var s := Initial(c, freq, gain, init);
      var ears, s' := EarsAfter(c, s, trace, Deaf(c)), AllocVoice(c, Execute(c, s, trace), ch, note, vel);
      && 0 <= i < c.voices && (ch, note) in s'.notes && s'.notes[(ch, note)] == i && s'.voices[i].gate == 1.0
      && (LastSeen(s'.voices[i]) == 0.0 <==> !(ears[i].heard && !ears[i].block))
  {
    InitialOk(c, freq, gain, init);
    var s := Initial(c, freq, gain, init);
    RunKeepsGates(c, s, trace, Deaf(c));
    i := OnsetIsRisingEdgeIff(c, Execute(c, s, trace), EarsAfter(c, s, trace, Deaf(c)), ch, note, vel);
  }

  /** No note-on of the trace finds an earlier voice for the same note pending. */
  ghost predicate NeverPending(c: Config, s: State, trace: seq<Step>)
    requires Ok(c, s) && Legal(c, s, trace)
    decreases |trace|
  {
    trace == [] ||
    (&& (trace[0].Midi? && trace[0].m.NoteOn? ==> !Pending(c, s, (trace[0].m.ch, trace[0].m.note)))
     && (ApplyOk(c, s, trace[0]); NeverPending(c, Apply(c, s, trace[0]), trace[1..])))
  }

  lemma SameAllocationTidy(c: Config, s: State, s': State)
    requires Tidy(c, s) && Ok(c, s') && SameAllocation(s, s')
    ensures Tidy(c, s')
  {
  }

  lemma MessageTidy(c: Config, s: State, m: Message)
    requires Tidy(c, s) && m.Valid() && Ok(c, Process(c, s, m))
    requires m.NoteOn? ==> !Pending(c, s, (m.ch, m.note))
    ensures Tidy(c, Process(c, s, m))
  {
    match m {
      case NoteOn(ch, note, vel) => AllocTidy(c, s, ch, note, vel);
      case NoteOff(ch, note) => DeallocTidy(c, s, ch, note);
      case ControlChange(ch, num, val) =>
        if num == 120 || num == 123 {
          var s1 := ReleaseAll(c, s, OnChannel(s.info, s.used, ch));
          ReleaseAllTidy(c, s, OnChannel(s.info, s.used, ch));
          SameAllocationTidy(c, s1, AllNotesOffChannel(c, s, ch));
        } else {
          ControllerKeeps(c, s, ch, num, val);
          SameAllocationTidy(c, s, Controller(c, s, ch, num, val));
        }
      case Tuning(realtime, mask, tuning) =>
        if realtime {
          UpdateChannelsKeeps(c, OctaveTuning(c, s, mask, tuning, false), mask, |s.chans|);
        }
        SameAllocationTidy(c, s, Process(c, s, m));
      case _ => SameAllocationTidy(c, s, Process(c, s, m));
    }
  }

  lemma ApplyTidy(c: Config, s: State, e: Step)
    requires Tidy(c, s) && StepOk(c, s, e)
    requires e.Midi? && e.m.NoteOn? ==> !Pending(c, s, (e.m.ch, e.m.note))
    ensures Tidy(c, Apply(c, s, e))
  {
    ApplyOk(c, s, e);
    match e {
      case StartBlock => QueuedNotesOffTidy(c, s);
      case Midi(m) => MessageTidy(c, s, m);
      case SetControl(j, x) => SameAllocationTidy(c, s, SetPort(c, s, j, x));
      case _ =>
    }
  }

  /** In such a run every used voice that is not queued stays reachable through the note table. */
  lemma {:induction false} RunKeepsReachable(c: Config, s: State, trace: seq<Step>)
    requires Tidy(c, s) && Legal(c, s, trace) && NeverPending(c, s, trace)
    ensures Reachable(c, Execute(c, s, trace))
    decreases |trace|
  {
    if trace != [] {
      ApplyOk(c, s, trace[0]);
      ApplyTidy(c, s, trace[0]);
      RunKeepsReachable(c, Apply(c, s, trace[0]), trace[1..]);
    }
  }

  /** All of this holds in every run of a fresh plugin. */
  lemma EveryRun(c: Config, freq: real, gain: real, init: seq<real>, trace: seq<Step>)
    requires c.Valid() && |init| == |c.controls|
    ensures var s := Initial(c, freq, gain, init);
      && Ok(c, s)
      && (Legal(c, s, trace) ==>
            var s' := Execute(c, s, trace);
            && Ok(c, s') && Zones(c, s', StaleAfter(c, s, trace, {})) && SynthOrder.Ordered(c, s')
            && Gates(c, s', EarsAfter(c, s, trace, Deaf(c)))
            && ((forall k :: 0 <= k < |trace| && trace[k].EndBlock? ==> trace[k].samples > 0) ==>
                  Attentive(EarsAfter(c, s, trace, Deaf(c))))
            && (NeverPending(c, s, trace) ==> Reachable(c, s')))
  {
    InitialOk(c, freq, gain, init);
    var s := Initial(c, freq, gain, init);
    if Legal(c, s, trace) {
      RunKeepsAll(c, s, trace, {});
      RunKeepsGates(c, s, trace, Deaf(c));
      if forall k :: 0 <= k < |trace| && trace[k].EndBlock? ==> trace[k].samples > 0 {
        RunsAttentively(c, s, trace, Deaf(c));
      }
      if NeverPending(c, s, trace) {
        RunKeepsReachable(c, s, trace);
      }
    }
  }

  /** After every run of a fresh plugin, a used voice sounds at the pitch of its note plus the coarse, fine and octave
      tuning and the bend of its channel, unless a tuning message that was not in real time has been the last one of all
      that tune its channel. */
  lemma SoundsInTune(c: Config, freq: real, gain: real, init: seq<real>, trace: seq<Step>, i: int)
    requires c.Valid() && c.hasFreq && |init| == |c.controls|
    requires Ok(c, Initial(c, freq, gain, init)) && Legal(c, Initial(c, freq, gain, init), trace)
    requires i in Execute(c, Initial(c, freq, gain, init), trace).used
    ensures var s := Execute(c, Initial(c, freq, gain, init), trace);
      var (ch, note) := s.info[i];
      var t := s.chans[ch];
      || s.voices[i].freq == c.cps(note as real + t.coarse + t.fine + t.tuning[note % 12] + t.bend)
      || exists k :: 0 <= k < |trace| && Detunes(trace[k], ch) && forall j :: k < j < |trace| ==> !Refreshes(trace[j], ch)
  {
    InitialOk(c, freq, gain, init);
    var s0 := Initial(c, freq, gain, init);
    RunKeepsAll(c, s0, trace, {});
    var s := Execute(c, s0, trace);
    assert InTune(c, s, StaleAfter(c, s0, trace, {}), i);
    if s.info[i].0 in StaleAfter(c, s0, trace, {}) {
      var k := StaleSince(c, s0, trace, {}, s.info[i].0);
    }
  }

  lemma Unroll(c: Config, s: State, trace: seq<Step>)
    requires Ok(c, s) && Legal(c, s, trace) && trace != []
    ensures StepOk(c, s, trace[0]) && Ok(c, Apply(c, s, trace[0]))
    ensures Legal(c, Apply(c, s, trace[0]), trace[1..])
    ensures Execute(c, s, trace) == Execute(c, Apply(c, s, trace[0]), trace[1..])
  {
    ApplyOk(c, s, trace[0]);
  }

  /** Step `k` of the trace leads from state `k` to the next one. */
  ghost predicate Link(c: Config, states: seq<State>, trace: seq<Step>, k: nat)
    requires k < |trace| && |states| == |trace| + 1
  {
    Ok(c, states[k]) && StepOk(c, states[k], trace[k]) && states[k + 1] == Apply(c, states[k], trace[k])
  }

  ghost predicate Path(c: Config, states: seq<State>, trace: seq<Step>) {
    |states| == |trace| + 1 && forall k :: 0 <= k < |trace| ==> Link(c, states, trace, k)
  }

  /** The states that a trace goes through. */
  ghost function StatesOf(c: Config, s: State, trace: seq<Step>): (states: seq<State>)
    requires Ok(c, s) && Legal(c, s, trace)
    ensures Path(c, states, trace) && states[0] == s && states[|trace|] == Execute(c, s, trace)
    decreases |trace|
  {
    if trace == [] then [s]
    else
      Unroll(c, s, trace);
      var rest := StatesOf(c, Apply(c, s, trace[0]), trace[1..]);
      PathCons(c, s, rest, trace);
      [s] + rest
  }

  lemma PathCons(c: Config, s: State, rest: seq<State>, trace: seq<Step>)
    requires trace != [] && Ok(c, s) && StepOk(c, s, trace[0])
    requires Path(c, rest, trace[1..]) && rest[0] == Apply(c, s, trace[0])
    ensures Path(c, [s] + rest, trace)
  {
    var states := [s] + rest;
    forall k | 0 <= k < |trace| ensures Link(c, states, trace, k) {
      if k > 0 {
        assert Link(c, rest, trace[1..], k - 1);
      }
    }
  }

  /** A run by its first step. */
  lemma RunCons(c: Config, s: State, trace: seq<Step>, k: nat, s1: State)
    requires Ok(c, s) && k < |trace| && StepOk(c, s, trace[k]) && s1 == Apply(c, s, trace[k])
    requires Ok(c, s1) && Legal(c, s1, trace[k + 1..])
    ensures Legal(c, s, trace[k..]) && Execute(c, s, trace[k..]) == Execute(c, s1, trace[k + 1..])
  {
    assert trace[k..][0] == trace[k] && trace[k..][1..] == trace[k + 1..];
  }

  /** A note that is switched on and off within the first block leaves its voice pending. */
  lemma OnOffIsPending(c: Config, s: State)
    requires Tidy(c, s) && c.hasGate && c.voices >= 2
    requires s.nfree == c.voices && s.notes == map[] && s.free[0] == 0 && s.lastgate[0] == 0.0
    ensures var s1 := AllocVoice(c, s, 0, 60, 100);
      && Ok(c, s1)
      && var s2 := DeallocVoice(c, s1, 0, 60);
      Tidy(c, s2) && Pending(c, s2, (0, 60))
  {
    var s1 := AllocVoice(c, s, 0, 60, 100);
    assert !Pending(c, s, (0, 60)) by {
      NoQueued(c, s);
    }
    AllocTidy(c, s, 0, 60, 100);
    var i := AllocTriggers(c, s, 0, 60, 100);
    DeallocTidy(c, s1, 0, 60);
    var s2 := DeallocVoice(c, s1, 0, 60);
    assert 0 in s2.queued && s2.info[0] == (0, 60) && s2.nfree == c.voices - 1;
  }

  lemma NoQueued(c: Config, s: State)
    requires Ok(c, s) && s.nfree == c.voices
    ensures forall j :: j !in s.queued
  {
    forall j | j in s.used ensures false {
      RoomToRelease(c, s, j);
    }
  }

  function OnOffOn(): (trace: seq<Step>) {
    [Midi(NoteOn(0, 60, 100)), Midi(NoteOff(0, 60)), Midi(NoteOn(0, 60, 100)), StartBlock]
  }

  /** On, off, on for one note in the first block: the second voice can no longer be switched off once
      the next block has released the first one. */
  lemma RetriggerLosesNote(c: Config, freq: real, gain: real, init: seq<real>)
    requires c.Valid() && c.hasGate && c.voices >= 2 && |init| == |c.controls|
    ensures var s := Initial(c, freq, gain, init);
      Ok(c, s) && Legal(c, s, OnOffOn()) && !Reachable(c, Execute(c, s, OnOffOn()))
  {
    InitialOk(c, freq, gain, init);
    FreshLosesNote(c, Initial(c, freq, gain, init));
  }

  lemma FreshLosesNote(c: Config, s: State)
    requires Tidy(c, s) && c.hasGate && c.voices >= 2
    requires s.nfree == c.voices && s.notes == map[] && s.free[0] == 0 && s.lastgate[0] == 0.0
    ensures Legal(c, s, OnOffOn()) && !Reachable(c, Execute(c, s, OnOffOn()))
  {
    OnOffIsPending(c, s);
    var s1 := AllocVoice(c, s, 0, 60, 100);
    OffOnLoses(c, s1);
    RunCons(c, s, OnOffOn(), 0, s1);
    assert OnOffOn()[0..] == OnOffOn();
  }

  lemma OffOnLoses(c: Config, s: State)
    requires Ok(c, s)
    requires var s2 := DeallocVoice(c, s, 0, 60); Tidy(c, s2) && Pending(c, s2, (0, 60))
    ensures Legal(c, s, OnOffOn()[1..]) && !Reachable(c, Execute(c, s, OnOffOn()[1..]))
  {
    var s2 := DeallocVoice(c, s, 0, 60);
    OnLoses(c, s2);
    RunCons(c, s, OnOffOn(), 1, s2);
  }

  lemma OnLoses(c: Config, s: State)
    requires Tidy(c, s) && Pending(c, s, (0, 60))
    ensures Legal(c, s, OnOffOn()[2..]) && !Reachable(c, Execute(c, s, OnOffOn()[2..]))
  {
    PendingLosesNote(c, s, 0, 60, 100);
    var s3 := AllocVoice(c, s, 0, 60, 100);
    StartLoses(c, s3);
    RunCons(c, s, OnOffOn(), 2, s3);
  }

  lemma StartLoses(c: Config, s: State)
    requires Ok(c, s)
    ensures Legal(c, s, OnOffOn()[3..]) && Execute(c, s, OnOffOn()[3..]) == QueuedNotesOff(c, s)
  {
    QueuedNotesOffOk(c, s);
    assert OnOffOn()[4..] == [];
    RunCons(c, s, OnOffOn(), 3, QueuedNotesOff(c, s));
  }

  // ---------------------------------------------------------------------------------------
  // run()
  // ---------------------------------------------------------------------------------------

  /** The transitions of one call of run(). */
  function RunSteps(active: bool, poly: int, msgs: seq<Message>, ports: seq<real>, samples: nat): seq<Step> {
    [StartBlock] +
    if active then
      [SetPoly(poly)] + seq(|msgs|, k requires 0 <= k < |msgs| => Midi(msgs[k]))
      + seq(|ports|, j requires 0 <= j < |ports| => SetControl(j, ports[j])) + [EndBlock(samples)]
    else []
  }

  /** Traces without SetPoly need nothing from the state. */
  lemma {:induction false} StatelessLegal(c: Config, s: State, trace: seq<Step>)
    requires Ok(c, s)
    requires forall k :: 0 <= k < |trace| ==>
      && !trace[k].SetPoly? && (trace[k].Midi? ==> trace[k].m.Valid())
      && (trace[k].SetControl? ==> 0 <= trace[k].j < |c.controls|)
    ensures Legal(c, s, trace)
    decreases |trace|
  {
    if trace != [] {
      ApplyOk(c, s, trace[0]);
      StatelessLegal(c, Apply(c, s, trace[0]), trace[1..]);
    }
  }

  /** run() is legal in every consistent state: the polyphony is changed only after queued_notes_off. */
  lemma RunIsLegal(c: Config, s: State, poly: int, msgs: seq<Message>, ports: seq<real>, samples: nat)
    requires Ok(c, s) && |ports| == |c.controls| && forall k :: 0 <= k < |msgs| ==> msgs[k].Valid()
    ensures Legal(c, s, RunSteps(s.active, poly, msgs, ports, samples))
  {
    var trace := RunSteps(s.active, poly, msgs, ports, samples);
    ApplyOk(c, s, StartBlock);
    QueuedNotesOffOk(c, s);
    var s1 := QueuedNotesOff(c, s);
    if s.active {
      assert trace[1] == SetPoly(poly) && trace[1..][0] == SetPoly(poly);
      ApplyOk(c, s1, SetPoly(poly));
      StatelessLegal(c, SetPolyphony(c, s1, poly), trace[1..][1..]);
    }
  }

  /** Without it the reset would be wrong: it is right exactly when no voice is queued. */
  lemma PolyphonyResetIff(c: Config, s: State, n: int)
    requires Ok(c, s) && n != s.nvoices && 0 < n <= c.voices
    ensures Ok(c, SetPolyphony(c, s, n)) <==> s.queued == {}
  {
    var s' := SetPolyphony(c, s, n);
    if s.queued == {} {
      ResetOk(c, s);
    } else {
      if forall i :: i !in s.queued {
        assert false;
      }
      var i :| i in s.queued;
      assert i in s'.queued && i !in s'.used;
    }
  }

  // ---------------------------------------------------------------------------------------
  // The channel mask of the tuning messages
  // ---------------------------------------------------------------------------------------

  lemma {:induction false} BitOfSum(hi: nat, lo: nat, width: nat, b: nat)
    requires lo < Power(width)
    ensures Bit(hi * Power(width) + lo, b) <==> if b < width then Bit(lo, b) else Bit(hi, b - width)
  {
    if width == 0 {
      assert hi * 1 + lo == hi;
    } else {
      var p := Power(width - 1);
      assert hi * Power(width) == 2 * (hi * p);
      assert (2 * (hi * p) + lo) % 2 == lo % 2 && (2 * (hi * p) + lo) / 2 == hi * p + lo / 2;
      if b > 0 {
        BitOfSum(hi, lo / 2, width - 1, b - 1);
      }
    }
  }

  function Power(n: nat): (r: nat)
    ensures r > 0
  {
    if n == 0 then 1 else 2 * Power(n - 1)
  }

  /** The mask spreads over three 7-bit bytes: channels 0-6 in the last, 7-13 in the middle one, 14 and 15
      in the first. */
  lemma MaskBytes(a: int, b: int, c: int, ch: int)
    requires 0 <= a < 128 && 0 <= b < 128 && 0 <= c < 128 && 0 <= ch < CHANNELS
    ensures ch in Mask(a, b, c) <==> if ch < 7 then Bit(c, ch) else if ch < 14 then Bit(b, ch - 7) else Bit(a, ch - 14)
  {
    assert Power(7) == 128 by {
      assert Power(3) == 8;
      assert Power(5) == 32;
    }
    assert a * 16384 + b * 128 + c == (a * 128 + b) * 128 + c;
    BitOfSum(a * 128 + b, c, 7, ch);
    if ch >= 7 {
      BitOfSum(a, b, 7, ch - 7);
    }
  }
}
