# Faust runtime algorithms in Dafny

Faust compiles signal-processing programs; its architecture files carry the code that runs such programs inside a
host. This project models the algorithms in those files that keep state and have something to go wrong, and proves
what they guarantee on every input, every run or every interleaving.

* **Work-stealing scheduler** (`TaskGraph`, `Distribution`, `WorkStealing*`, `TaskQueue`). Worker threads run the
  `computeThread` loop that the compiler generates, against per-thread queues whose head and tail share one word that
  is changed by compare-and-swap, and against atomically decremented activation counters. `WorkStealing.Step` is at
  most one access by one worker to memory that another worker may change; a schedule is any sequence of worker numbers;
  `WorkStealing.Execute` runs it, on a platform whose `atomic_xadd` returns the new or the old value.
  `WorkStealingInvariant.Inv` is the inductive invariant, `WorkStealingSteps`, `-Moves`, `-Push`, `-Cycle`, `-Reset` and
  `-Safety` prove that every step keeps it, `-Traffic` follows the tasks through the queues, `-Frames` says who may
  change what, `WorkStealingTheorems` draws the conclusions, and `WorkStealingProgress` proves that the workers can
  always go on. `TaskQueue` has the same operations as objects, each run to its end by one thread; `QueueSteps` and
  `ActivationSteps` prove that this is what the uninterrupted steps of a worker do, and `HandOver` says what a worker
  does after a task in every reachable state.
* **Polyphonic LV2 synth** (`Synth*`). `Synth` has the transitions as functions on the plugin's state: voice
  allocation, deferred note-offs, stealing, polyphony changes, controllers, pitch bend, registered parameters,
  scale/octave tuning, control ports. `SynthAllocation`, `SynthZones`, `SynthGate`, `SynthOrder` and `SynthReach` prove
  one invariant each, and `SynthRuns` lifts them to all runs; `SynthWitness` has a run that goes wrong. `SynthEffects`,
  `SynthMessages` and `SynthBlocks` say, without the functions of `Synth`, what notes, messages and blocks change, from
  the bytes on. `SynthPlugin` is the object with the loops of the source, proved to compute exactly those transitions,
  up to the whole of `run()` on the bytes of its messages.
* **VST synth** (`VstVoices`, `VstEffects`, `VstPlugin`, `VstWitness`): the life cycle of voices between free, playing
  and released, and the queue of notes that are due in the current or a later chunk of samples.
* **DSSI synth** (`DssiPlugin`): note events cut a run of samples into segments.
* **Instance pool** (`InstancePool`): chunks of preallocated instances with a linked first-in-first-out free list.
* **Label metadata** (`Metadata`): the bracket-and-escape parser for `vol [unit: dB]`.
* **Pure Data paths** (`PdPaths`): label mangling, path normalisation, group nesting and name matching.
* **Control interpolation** (`Interpolation`): control points spread over samples along straight lines, with a carried
  remainder.

## Properties that do not hold

Each has a run from the initial state that breaks it, and the exact condition under which the code does what one
expects.

* A note that is switched on, off and on again in one LV2 block can no longer be switched off
  (`SynthRuns.RetriggerLosesNote`); a note-on stays reachable exactly when no earlier voice for the same note is
  pending (`SynthReach.ReachableIff`).
* A note-on of the LV2 synth need not be a rising edge for the synth if a block was empty
  (`SynthWitness.EmptyBlockLosesOnset`). It is one exactly when it is not the case that the gate was open in the last
  sample of its voice and closed at the end of the last block (`SynthRuns.OnsetAfterRun`), which takes an empty block
  (`SynthRuns.RunsAttentively`).
* A VST note that steals a released voice in a silent moment is lost, with any number of voices
  (`VstWitness.StolenNoteIsLost`, condition `VstVoices.NoteOnSoundsIff`).
* A VST note-off closes only the gate of the last voice found (`VstWitness.OneGateStaysOpen`, condition
  `VstVoices.NoteOffClosesIff`).
* The segments of a VST chunk do not add up to the chunk when an event is postponed after others were handled
  (`VstWitness.ChunkComputedTwice`, condition `VstVoices.SegmentsAddUpIff`).
* Where `atomic_xadd` returns the old value, a task with several inputs is never released, and no schedule completes
  the buffer (`WorkStealingProgress.BlockedForever`, with `TaskGraph.DiamondIsValid` as an instance). A buffer can be
  completed exactly when the platform returns the new value or no task has several inputs
  (`WorkStealingProgress.CompletesIff`). All safety theorems hold on both platforms.

The polyphony reset of the LV2 synth is right exactly when no voice is queued (`SynthRuns.PolyphonyResetIff`); `run()`
sees to that (`SynthRuns.RunIsLegal`).

## Model

| member | source | states |
|---|---|---|
| `WorkStealingTheorems.ReachableInv` | architecture/scheduler.cpp:750-969 | the scheduler's invariant holds after every schedule of every number of workers on every valid graph, on both platforms |
| `WorkStealingTheorems.MemorySafe` | architecture/scheduler.cpp:798-838 | no slot or counter is accessed out of bounds, and tail <= head < number of tasks <= 32767 in every queue, so the 16-bit halves never wrap |
| `WorkStealingTheorems.ExecutedOnceAfterInputs` | compiler/generator/wss_code_container.cpp:294-421 | on the block whose index the worker read at its loop head, every task starts at most once, and only after all its inputs have finished on that block |
| `WorkStealingTheorems.IndexIsCurrent` | compiler/generator/wss_code_container.cpp:294-317 | the index that a worker with a task read at its loop head is still the current one |
| `WorkStealingTheorems.OnePlacePerTask` | architecture/scheduler.cpp:798-873 | a task is never in two queue windows, in a queue and in a worker's hands, or in two workers' hands |
| `WorkStealingTheorems.DeliveredOnce` | architecture/scheduler.cpp:798-838 | over every schedule: on one block no task becomes visible in a queue twice or is read out twice, every task read out became visible before, and at completion every one was read out |
| `WorkStealingTheorems.InTransit` | architecture/scheduler.cpp:798-838 | at any time the tasks that became visible and were not read out are those in the queue windows and those claimed by a CAS |
| `WorkStealingTheorems.ClaimIsStable` | architecture/scheduler.cpp:817-837 | between the CAS and the read of the slot, however long the other workers go on, the slot keeps its task |
| `WorkStealingTheorems.QueuesAreOwned` | architecture/scheduler.cpp:798-838 | only the owner moves head and writes slots, at head; tail never decreases; the exception is the reset, which finds the queue empty |
| `WorkStealingTheorems.NoTaskIsLost` | architecture/scheduler.cpp:937-969 | a task whose inputs have finished and activated it has started or is in a queue or in a worker's hands |
| `WorkStealingTheorems.NeverRunsDry` | architecture/scheduler.cpp:855-873 | while the buffer is unfinished, some queue is not empty or some worker holds a task |
| `WorkStealingTheorems.CompleteMeansAllDone` | compiler/generator/wss_code_container.cpp:264-289 | when the index reaches the end, every task ran on every block, nothing else ran, and no task is left anywhere |
| `WorkStealingTheorems.BoundedWork` | compiler/generator/wss_code_container.cpp:264-429 | no schedule makes the workers execute more than one start and one finish per task and block |
| `WorkStealingProgress.CanComplete` | compiler/generator/wss_code_container.cpp:264-429 | from every state that the workers can get into, some continuation of the schedule completes the buffer |
| `WorkStealingProgress.RunAlone` | architecture/scheduler.cpp:804-873 | a worker that runs alone makes an event or becomes idle with all queues empty |
| `WorkStealingProgress.BlockedForever` | architecture/scheduler.cpp:304-317 | on the old-value platform a task with several inputs never starts and no schedule completes |
| `WorkStealingProgress.CompletesIff` | architecture/scheduler.cpp:304-317 | some schedule completes the buffer if and only if the platform returns the new value or no task has several inputs |
| `WorkStealingTheorems.ExitsWithEmptyHands` | compiler/generator/wss_code_container.cpp:294-296 | a worker leaves its loop only when the buffer is complete, and without a task |
| `WorkStealingTheorems.InitialInv` | architecture/scheduler.cpp:1296-1310 | dispatching the ready tasks over all queues establishes the invariant |
| `WorkStealingSafety.StepKeepsInv` | architecture/scheduler.cpp:789-969 | every memory access of every worker keeps the invariant; what the accesses after a task achieve is stated by `HandOver.AfterTask` |
| `HandOver.AfterTask` | compiler/generator/wss_code_container.cpp:321-421 | in every reachable state a worker that runs alone from the end of a task goes on with the first successor that waited for this task alone and queues all others that became ready, in order; else with the first one that became ready; else with the task it queued last, or nothing; exactly the counters of the successors with several inputs go down by one, and nothing else changes |
| `HandOver.RoomForSuccessors` | architecture/scheduler.cpp:798-802 | the queue always has room for all successors of a task that has activated nothing yet |
| `HandOver.StealAlone` | architecture/scheduler.cpp:855-873 | a worker that steals alone takes the first task of the first queue that is not empty, and empties no other; with all queues empty it ends with 0 |
| `HandOver.StartWindows` | architecture/scheduler.cpp:1296-1310 | at the start every queue holds the share of its thread, every counter the number of inputs, and no worker a task |
| `ActivationSteps.GetReadyAlone` | architecture/scheduler.cpp:964-969 | getReadyTask, uninterrupted: with an empty register the task queued last, or 0, and otherwise nothing changes |
| `ActivationSteps.ActivateOneAlone` | architecture/scheduler.cpp:955-962 | activateOneOutputTask, uninterrupted: the task if this was its last activation, and otherwise the task queued last, or 0 |
| `ActivationSteps.Activate1Alone` | architecture/scheduler.cpp:937-946 | activateOutputTask1, uninterrupted: a released task goes into the empty register, or to the end of the queue |
| `ActivationSteps.Activate2Alone` | architecture/scheduler.cpp:948-953 | activateOutputTask2, uninterrupted: a released task goes to the end of the queue |
| `ActivationSteps.PushAlone` | compiler/generator/wss_code_container.cpp:354-363 | a successor with one input goes to the end of the queue unless it is the kept one |
| `WorkStealingSafety.PushPublishStep` | architecture/scheduler.cpp:798-802 | the non-atomic increment of head is safe although thieves move tail in the same word |
| `WorkStealingSafety.PopCases` | architecture/scheduler.cpp:804-820 | PopHead: a successful CAS claims the last task of the queue for its worker alone, a failed one and an empty queue move nothing, the read delivers the claimed task |
| `WorkStealingSafety.StealCases` | architecture/scheduler.cpp:822-838 | PopTail: the same for the first task of any queue, even when the counter word went back to the value read before (ABA) |
| `WorkStealingMoves.ClaimStep` | architecture/scheduler.cpp:804-838 | a successful CAS takes the task out of the window and gives it to the claimer, and keeps the invariant |
| `WorkStealingReset.EndTaskIsLast` | compiler/generator/wss_code_container.cpp:264-289 | when the end task runs, every other task is finished, so it may reset counters and queues |
| `WorkStealingReset.InitCountStep` | compiler/generator/wss_code_container.cpp:91-118 | resetting the counters one by one keeps the invariant while the other workers keep looking for tasks |
| `TaskGraph.ActivatesEachSuccessorOnce` | compiler/generator/wss_code_container.cpp:321-421 | the generated activation code activates every successor once, through its counter exactly when it has several inputs |
| `TaskGraph.ActionHasSuccessor` | compiler/generator/wss_code_container.cpp:321-421 | and it activates nothing but successors |
| `TaskGraph.Graph.KeepIsFirst` | compiler/generator/wss_code_container.cpp:341-349 | the kept successor is the first one that waits for this task alone |
| `TaskGraph.DiamondIsValid` | compiler/generator/wss_code_container.cpp:321-421 | a diamond of four tasks is a valid graph, so the scheduler theorems are not empty |
| `Distribution.OriginInjective` | architecture/scheduler.cpp:875-891 | no ready task is handed to two threads, or twice to one |
| `Distribution.OriginSurjective` | architecture/scheduler.cpp:875-891 | every ready task is handed to some thread |
| `Distribution.OriginCorrect` | architecture/scheduler.cpp:875-891 | each position of a thread's share holds the ready task of its origin |
| `Distribution.ShareAt` | architecture/scheduler.cpp:875-891 | thread i receives the i-th slice of consecutive ready tasks, and thread 0 also those behind all slices |
| `Distribution.DispatchIsComplete` | architecture/scheduler.cpp:1296-1310 | dispatching over all queues and pushing on one queue yield the same multiset, for every thread count and list |
| `TaskQueue.TaskQueue.InitOne` | architecture/scheduler.cpp:789-796 | an empty queue with cleared slots |
| `QueueSteps.PushHeadAlone` | architecture/scheduler.cpp:798-802 | three uninterrupted steps of a worker push the item as `TaskQueue.PushHead` does |
| `QueueSteps.PopHeadAlone` | architecture/scheduler.cpp:804-820 | one or three uninterrupted steps pop as `TaskQueue.PopHead` does |
| `QueueSteps.PopTailAlone` | architecture/scheduler.cpp:822-838 | one or three uninterrupted steps steal as `TaskQueue.PopTail` does |
| `TaskQueue.TaskQueue.PushHead` | architecture/scheduler.cpp:798-802 | the queue grows by the item at the owner's end |
| `TaskQueue.TaskQueue.PopHead` | architecture/scheduler.cpp:804-820 | the item pushed last, or 0 when empty |
| `TaskQueue.TaskQueue.PopTail` | architecture/scheduler.cpp:822-838 | the item pushed first, or 0 when empty |
| `TaskQueue.TaskQueue.InitTaskList` | architecture/scheduler.cpp:875-891 | a thread pushes exactly its share of the ready tasks |
| `TaskQueue.GetNextTask` | architecture/scheduler.cpp:855-873 | the first non-empty queue gives up its tail, the other queues keep their contents, 0 only if all are empty |
| `TaskQueue.InitAll` | architecture/scheduler.cpp:893-898 | all queues become empty |
| `TaskQueue.InitTaskList` | architecture/scheduler.cpp:1296-1310 | thread -1 dispatches shares over all queues, any other thread takes the whole list |
| `TaskQueue.ReleasedByOneActivation` | architecture/scheduler.cpp:304-317 | of k decrements of a counter n exactly one returns 0: the n-th or, where the old value is returned, the (n+1)-th |
| `TaskQueue.Activations.Decrement` | architecture/scheduler.cpp:346-349 | DEC_ATOMIC changes one counter and returns its new or old value |
| `TaskQueue.Activations.ActivateOutputTask` | architecture/scheduler.cpp:937-946 | a released task is kept if the register is empty and pushed otherwise |
| `TaskQueue.Activations.ActivateIntoQueue` | architecture/scheduler.cpp:948-953 | a released task is pushed |
| `TaskQueue.Activations.GetReadyTask` | architecture/scheduler.cpp:964-969 | only with an empty register, the task pushed last |
| `TaskQueue.Activations.ActivateOneOutputTask` | architecture/scheduler.cpp:955-962 | the released task, or else the task pushed last |
| `SynthRuns.EveryRun` | architecture/lv2synth.cpp:498-1366 | in every run of a fresh plugin: consistent allocation, controls equal to the channel's values, frequencies equal to that of note + coarse + fine + octave tuning + bend on channels that are not stale, trigger order, gates, and, under their conditions, rising edges and reachability |
| `SynthRuns.SoundsInTune` | architecture/lv2synth.cpp:660-712 | after every run a used voice sounds at note + coarse + fine + tuning[note % 12] + bend, unless the last message that tuned its channel was a tuning message not in real time |
| `SynthRuns.StaleSince` | architecture/lv2synth.cpp:1234-1251 | a channel is stale only since such a message, and no pitch bend, all notes off or real-time tuning of the channel came after it |
| `SynthRuns.RunKeepsAll` | architecture/lv2synth.cpp:559-783 | the same from every consistent state, with the set of channels that were retuned without notice |
| `SynthRuns.RunKeepsGates` | architecture/lv2synth.cpp:1341-1365 | over every run a gate is open exactly when its voice is used, and what the synth and the plugin last saw of it follows from who was used at the ends of blocks |
| `SynthRuns.RunsAttentively` | architecture/lv2synth.cpp:1363-1365 | without empty blocks no voice is heard with an open gate that the last block did not end with |
| `SynthRuns.OnsetAfterRun` | architecture/lv2synth.cpp:666-689 | after every run of a fresh plugin, exactly when the next note-on is a rising edge for the synth |
| `SynthWitness.EmptyBlockLosesOnset` | architecture/lv2synth.cpp:1363-1365 | a run with an empty block whose last note-on is not a rising edge, with any number of voices |
| `SynthRuns.RunKeepsReachable` | architecture/lv2synth.cpp:594-636 | over every run without pending retriggers every used, unqueued voice stays reachable |
| `SynthRuns.RetriggerLosesNote` | architecture/lv2synth.cpp:758-783 | on, off, on in one block loses the second note |
| `SynthRuns.RunIsLegal` | architecture/lv2synth.cpp:1006-1038 | run() changes the polyphony only when no voice is queued |
| `SynthRuns.PolyphonyResetIff` | architecture/lv2synth.cpp:1022-1036 | the reset, which leaves the queued bits alone, is right exactly when there are none |
| `SynthRuns.MaskBytes` | architecture/lv2synth.cpp:1234-1243 | which byte of a tuning message holds the bit of which channel |
| `SynthAllocation.ApplyOk` | architecture/lv2synth.cpp:559-783 | every transition keeps: free and used voices partition 0..nvoices-1, counters are sizes, queued voices are used, every note cell names a used unqueued voice of that note |
| `SynthAllocation.AllocTriggers` | architecture/lv2synth.cpp:559-619 | which voice a note-on triggers, what it changes, and that nothing else changes |
| `SynthEffects.AllocEffect` | architecture/lv2synth.cpp:559-619 | a note-on takes the note's voice, else the first free one, else the first used one; that voice goes to the end of the used list, and free list, note table and zones change as they should |
| `SynthEffects.DeallocEffects` | architecture/lv2synth.cpp:621-657 | a note-off queues the note's voice if its gate was not seen, and otherwise closes the gate and appends the voice to the free list |
| `SynthEffects.QueuedEffect` | architecture/lv2synth.cpp:758-783 | exactly the queued voices are released, the lower ones first |
| `SynthEffects.ChannelOffEffects` | architecture/lv2synth.cpp:731-756 | exactly the used voices of the channel are released, in the order of the used list, and the bend is reset |
| `SynthAllocation.RoomToRelease` | architecture/lv2synth.cpp:637 | the assertion n_free < nvoices holds at every release |
| `SynthAllocation.QueuedNotesOffOk` | architecture/lv2synth.cpp:758-783 | afterwards no voice is queued |
| `SynthAllocation.AllNotesOffChannelOk` | architecture/lv2synth.cpp:731-756 | exactly the voices of the channel are released |
| `Synth.SomeVoiceIsUsed` | architecture/lv2synth.cpp:596 | the assertion n_used > 0 holds when a voice is stolen |
| `SynthZones.ApplyKeepsZones` | architecture/lv2synth.cpp:660-712 | every transition keeps the controls of used voices equal to their channel's values, their frequency to that of note + coarse + fine + octave tuning + bend except on stale channels, and tune equal to coarse + fine |
| `SynthMessages.BentFrequency` | architecture/lv2synth.cpp:1087-1099 | after a pitch bend every used voice of the channel sounds at note + coarse + fine + tuning[note % 12] + (lsb + 128 msb - 8192) / 8192 * range |
| `SynthMessages.ParameterBytes` | architecture/lv2synth.cpp:1120-1193 | the controller messages 101 = p, 100 = r, 6 = m, 38 = l set, for p = 0, the bend range to m + l/100, the fine tuning to (128 m + l - 8192) / 8192 or the coarse tuning to m - 64 and retune the channel; any other p or r sets only the registers |
| `SynthMessages.StepBytes` | architecture/lv2synth.cpp:1134-1155 | controllers 96 and 97 step the upper data byte for coarse tuning and the lower one otherwise, within 0..127, and have the effect of the new data |
| `SynthMessages.DeselectBytes` | architecture/lv2synth.cpp:1111-1119 | after controller 121 no data byte tunes anything |
| `SynthMessages.MappedBytes` | architecture/lv2synth.cpp:1194-1221 | a mapped controller sets exactly its control of the channel and of the channel's used voices: max at 127, min + (max - min) v/128 below, a button at 64; an unmapped one changes nothing |
| `SynthMessages.TuningEffects` | architecture/lv2synth.cpp:1234-1251 | exactly the channels of the mask get the twelve notes, and exactly in the realtime form their used voices sound accordingly |
| `SynthMessages.TuningDecoded` | architecture/lv2synth.cpp:1228-1243 | which bit of which byte selects a channel, and the twelve values of both forms |
| `SynthMessages.BytesEffects` | architecture/lv2synth.cpp:1062-1251 | the bytes of any message have the effect that belongs to their status, field by field |
| `SynthBlocks.PortEffects` | architecture/lv2synth.cpp:1304-1322 | a changed port sets its control on all channels and in all used voices, an unchanged one nothing |
| `SynthBlocks.PolyEffects` | architecture/lv2synth.cpp:1022-1038 | another possible polyphony closes all gates and frees the voices in ascending order |
| `SynthBlocks.DeactivateEffects` | architecture/lv2synth.cpp:714-729 | deactivating closes all gates, resets the bends and frees all voices in ascending order |
| `SynthBlocks.RunKeepsRegisters` | architecture/lv2synth.cpp:1120-1155 | over every run all controller registers stay within seven bits |
| `SynthGate.ApplyKeepsGates` | architecture/lv2synth.cpp:666-698 | every transition keeps the gates and what is known about them right |
| `SynthGate.OnsetIsRisingEdgeIff` | architecture/lv2synth.cpp:666-689 | exactly when a note-on opens a gate that the synth has last seen closed |
| `SynthGate.EmptyBlockKeepsGatesIff` | architecture/lv2synth.cpp:1363-1365 | an empty block is harmless exactly when every voice whose last sample had an open gate is still used |
| `SynthOrder.ApplyKeepsOrder` | architecture/lv2synth.cpp:559-657 | the used list stays in the order of the last trigger |
| `SynthOrder.StealsLeastRecent` | architecture/lv2synth.cpp:594-619 | the stolen voice is the one triggered least recently |
| `SynthReach.NoteOffIsHonoured` | architecture/lv2synth.cpp:621-657 | the note-off of a reachable voice frees it, or queues it if its gate was not seen yet |
| `SynthReach.ReachableIff` | architecture/lv2synth.cpp:758-783 | a note-on is still reachable after the queued note-offs exactly when its note was not pending |
| `SynthPlugin.LV2SynthPlugin.constructor` | architecture/lv2synth.cpp:498-532 | the fresh plugin, field by field |
| `SynthPlugin.LV2SynthPlugin.VoiceOn` | architecture/lv2synth.cpp:666-689 | the loops and branches compute the transition, whose pitch, velocity, controls and gate `SynthEffects.AllocEffect` states |
| `SynthPlugin.LV2SynthPlugin.AllocVoice` | architecture/lv2synth.cpp:559-619 | the transition, the invariant, and that the note's cell names the returned voice |
| `SynthPlugin.LV2SynthPlugin.DeallocVoice` | architecture/lv2synth.cpp:621-657 | the transition, the invariant, and the returned voice or -1 |
| `SynthPlugin.LV2SynthPlugin.UpdateVoices` | architecture/lv2synth.cpp:700-712 | the loop over the used list retunes exactly the used voices of the channel, as `SynthMessages.UpdateRetunes` states |
| `SynthMessages.UpdateRetunes` | architecture/lv2synth.cpp:700-712 | exactly the used voices of the channel get the frequency of note + tune + octave tuning + bend |
| `SynthPlugin.LV2SynthPlugin.AllNotesOff` | architecture/lv2synth.cpp:714-729 | the transition |
| `SynthPlugin.LV2SynthPlugin.AllNotesOffChannel` | architecture/lv2synth.cpp:731-756 | erasing while iterating releases exactly the voices of the channel |
| `SynthPlugin.LV2SynthPlugin.QueuedNotesOff` | architecture/lv2synth.cpp:758-783 | the loop over all voices releases exactly the queued ones |
| `SynthPlugin.LV2SynthPlugin.SetPolyphony` | architecture/lv2synth.cpp:1022-1038 | the transition |
| `SynthPlugin.LV2SynthPlugin.PitchBend` | architecture/lv2synth.cpp:1087-1099 | the transition, whose effect `SynthMessages.BentFrequency` states |
| `SynthPlugin.LV2SynthPlugin.ControlChange` | architecture/lv2synth.cpp:1100-1223 | the transition, with data entry falling through to the registered parameters; its effect is stated by `SynthMessages.ControllerEffects` |
| `SynthMessages.ControllerEffects` | architecture/lv2synth.cpp:1100-1223 | which registers, tunings, controls and voices each controller number changes, and that nothing else changes |
| `SynthPlugin.LV2SynthPlugin.ApplyRpn` | architecture/lv2synth.cpp:1156-1193 | bend range, fine and coarse tuning; the latter two retune the voices |
| `SynthPlugin.LV2SynthPlugin.TuneOctave` | architecture/lv2synth.cpp:1234-1251 | twelve notes on all channels of the mask; only the realtime form retunes voices |
| `SynthPlugin.LV2SynthPlugin.SetPort` | architecture/lv2synth.cpp:1304-1322 | a changed port overrides all channels and all used voices |
| `SynthPlugin.LV2SynthPlugin.ComputeBlock` | architecture/lv2synth.cpp:1341-1365 | which gates the voices see, and the gates kept for the next block |
| `SynthPlugin.LV2SynthPlugin.ProcessMessage` | architecture/lv2synth.cpp:1062-1251 | the bytes of a message make the transition of the message they encode |
| `SynthPlugin.LV2SynthPlugin.Run` | architecture/lv2synth.cpp:1000-1366 | run() on the bytes of its messages executes the legal trace of its transitions, so that all run theorems apply to it; and it goes through the states of `SynthBlocks.BlockRun`: queued note-offs, polyphony, messages and ports in order, samples, each with its effect |
| `Synth.Decode` | architecture/lv2synth.cpp:1062-1251 | every message whose data bytes are below 128 decodes to a valid one; ignored messages may have any length |
| `Synth.DecodeEncode` | architecture/lv2synth.cpp:1062-1103 | channel messages decode to what they were encoded from |
| `Synth.EncodeDecode` | architecture/lv2synth.cpp:1062-1103 | and nothing else decodes to a channel message, but for the velocity of a note-off |
| `Synth.DecodeTuning` | architecture/lv2synth.cpp:1225-1251 | both forms of the tuning message decode to their channels and their twelve notes |
| `Synth.TuningEncoded` | architecture/lv2synth.cpp:1224-1251 | and nothing else decodes to a tuning message |
| `VstVoices.RunKeepsPartition` | architecture/vst.cpp:299-302 | over every run of queued notes, all-notes-off and chunks: free and playing voices partition all voices, released ones are playing, playing ones are tuned to their note |
| `VstVoices.MixdownOk` | architecture/vst.cpp:802-836 | a mixdown frees exactly the released silent voices and keeps the partition |
| `VstVoices.NoteOnOk` | architecture/vst.cpp:702-735 | taking or stealing a voice keeps the partition and the tuning |
| `VstVoices.NoteOffOk` | architecture/vst.cpp:736-761 | releasing keeps the partition and the tuning |
| `VstVoices.AllNotesOffOk` | architecture/vst.cpp:954-969 | afterwards exactly the playing voices are released |
| `VstEffects.MixdownEffects` | architecture/vst.cpp:802-836 | the released silent voices become free in playing order and keep the note they played as their previous one; everything else stays in its order |
| `VstEffects.NoteOnEffects` | architecture/vst.cpp:702-735 | a note-on takes the first free voice, or that of the first node, which keeps that node's note as its previous one; after the segment its gate is open and its frequency that of the note |
| `VstEffects.NoteOffEffects` | architecture/vst.cpp:736-761 | a note-off releases every voice of the note and, if one was not released before, closes the gate of the last one after the segment |
| `VstEffects.AllOffEffects` | architecture/vst.cpp:954-969 | all gates are closed and exactly the playing voices released |
| `VstEffects.ReactEffects` | architecture/vst.cpp:669-778 | every call of the host has its effect; in a chunk the due events act in order, each after the segment that leads up to it, and the others come nearer |
| `VstVoices.NoteOnSoundsIff` | architecture/vst.cpp:702-735 | when a note-on ends up playing |
| `VstWitness.StolenNoteIsLost` | architecture/vst.cpp:713-734 | for every number of voices, a run from the initial state whose last note is lost: its voice is free with an open gate |
| `VstWitness.OneGateStaysOpen` | architecture/vst.cpp:736-761 | a run in which one note-off for a note started twice leaves a gate open |
| `VstWitness.ChunkComputedTwice` | architecture/vst.cpp:683-776 | a chunk of 64 samples that computes 74 |
| `VstVoices.NoteOffClosesIff` | architecture/vst.cpp:736-761 | when a note-off closes the gates of all voices of the note |
| `VstVoices.EmptySegmentFreesReleased` | architecture/vst.cpp:808-825 | a segment without samples frees every released voice |
| `VstVoices.SilenceFreesAll` | architecture/vst.cpp:954-969 | all notes off and then silence returns every voice to the free list |
| `VstVoices.SegmentsAddUpIff` | architecture/vst.cpp:683-776 | when the segments of a chunk add up to it |
| `VstVoices.SortedSegments` | architecture/vst.cpp:725-772 | for sorted events no segment is negative |
| `VstVoices.ChunkingDoesNotMatter` | architecture/vst.cpp:685-695 | how samples are cut into chunks does not change which events are still queued, nor their time left |
| `VstPlugin.Faust.constructor` | architecture/vst.cpp:299-302 | all voices are free |
| `VstPlugin.Faust.FreeSilent` | architecture/vst.cpp:802-827 | the first loop frees the released silent voices in playing order |
| `VstPlugin.Faust.Erase` | architecture/vst.cpp:828-836 | the second loop erases exactly their nodes |
| `VstPlugin.Faust.Compute` | architecture/vst.cpp:780-844 | both loops together are one mixdown |
| `VstPlugin.Faust.StartNote` | architecture/vst.cpp:702-735 | a note-on with the segment before it |
| `VstPlugin.Faust.EndNote` | architecture/vst.cpp:736-761 | a note-off with the segment before it |
| `VstPlugin.Faust.AllOff` | architecture/vst.cpp:954-969 | all gates closed, all playing voices released |
| `VstPlugin.Faust.QueueNote` | architecture/vst.cpp:935-952 | an event is appended to the three queues |
| `VstPlugin.Faust.SynthProcessReplacing` | architecture/vst.cpp:669-778 | one chunk handles the due events in order with the right segments and postpones the rest; the states between the events are linked by the effects of `VstEffects.ChunkRun` |
| `DssiPlugin.Plugin.constructor` | architecture/dssi.cpp:645-653 | every voice is free and plays nothing |
| `DssiPlugin.Plugin.HandleEvent` | architecture/dssi.cpp:791-828 | the effect of `DssiPlugin.Effect`: a note-on with a velocity takes the first free voice if there is one, a note-off stops exactly the voices of its note and appends them to the free list in increasing order, and nothing else changes |
| `DssiPlugin.Plugin.RunImpl` | architecture/dssi.cpp:775-844 | segments are positive and add up to the run; events before the first one beyond the run are handled once, in order, each with its effect and after exactly the latest tick of its prefix; sorted or not |
| `DssiPlugin.ApplyConsistent` | architecture/dssi.cpp:791-828 | every event keeps: a voice is on the free list, once, exactly when its note is -1 and its gate is closed |
| `DssiPlugin.ApplyEffect` | architecture/dssi.cpp:791-828 | every event has its effect, stated by the voices, gates and list positions that change |
| `DssiPlugin.EffectOnly` | architecture/dssi.cpp:791-828 | the effect of an event determines the state |
| `DssiPlugin.StopConsistent` | architecture/dssi.cpp:814-825 | a note-off stops every voice with the note and no other one |
| `DssiPlugin.LatestIsMaximum` | architecture/dssi.cpp:786-789 | the time at which an event is handled is the maximum of the ticks up to it |
| `InstancePool.Pool.NewDsp` | architecture/pure.cpp:383-433 | the instance free for longest, with null links; a chunk is added only when none is free |
| `InstancePool.Pool.DelDsp` | architecture/pure.cpp:435-446 | the instance goes to the end of the free list; its links are null before |
| `InstancePool.Pool.Grow` | architecture/pure.cpp:385-418 | the instances of a new chunk become the free list, linked and acyclic; the static chunk comes first |
| `InstancePool.Pool.Fini` | architecture/pure.cpp:368-376 | every heap chunk is freed once and the static one never |
| `InstancePool.FreeListIsTheRest` | architecture/pure.cpp:383-446 | at any time the free list holds exactly the instances of the chunks that are not handed out, each once |
| `InstancePool.ChunksForPeak` | architecture/pure.cpp:402-418 | the number of chunks is the peak demand rounded up to chunks |
| `Metadata.ExtractMetadata` | architecture/oss-gtk.cpp:682-774 | the loop computes the state machine; its depth assertions hold on every string |
| `Metadata.Trim` | architecture/oss-gtk.cpp:666-676 | neither end of the result is blank |
| `Metadata.TrimCutsBlanks` | architecture/oss-gtk.cpp:666-676 | only blanks are cut off |
| `Metadata.TrimIdempotent` | architecture/oss-gtk.cpp:666-676 | trimming twice is trimming once |
| `Metadata.PrintThenExtract` | architecture/oss-gtk.cpp:682-774 | text printed with the parser's escapes parses back to the trimmed label and pairs; later keys win, balanced brackets in keys and values survive |
| `Metadata.ExtractPrintExtract` | architecture/oss-gtk.cpp:682-774 | printing what was parsed from any string and parsing it again gives the same label and metadata |
| `Metadata.FeedBalanced` | architecture/oss-gtk.cpp:745-767 | balanced unescaped brackets inside a value survive verbatim |
| `Metadata.FeedBalancedKey` | architecture/oss-gtk.cpp:722-744 | balanced unescaped brackets inside a key survive verbatim, with the colons inside them |
| `Metadata.FeedBackslash` | architecture/oss-gtk.cpp:700-721 | a backslash before any character, in the label, a key or a value, stands for that character |
| `PdPaths.Mangle` | architecture/puredata.cpp:105-132 | the loop squeezes runs of other characters, with the replacement of empty labels |
| `PdPaths.SqueezeIsClean` | architecture/puredata.cpp:123-130 | the result has only letters, digits and single dashes between them |
| `PdPaths.MangledSpells` | architecture/puredata.cpp:105-132 | exactly the letters and digits of a label survive, in order, with one dash exactly where other characters separate two of them; an empty label or 0x00 stands for the dsp name at the top, which keeps a leading dash, and for nothing below |
| `PdPaths.NormPath` | architecture/puredata.cpp:134-146 | a slash before each non-empty component, for every path |
| `PdPaths.PathCat` | architecture/puredata.cpp:148-156 | the components of the path followed by those of the label |
| `PdPaths.PdUI.AddElem` | architecture/puredata.cpp:184-256 | the stored label is the join of the path's and the label's components |
| `PdPaths.PdUI.OpenBox` | architecture/puredata.cpp:274-291 | one more level, and the group's name as one more component |
| `PdPaths.PdUI.CloseBox` | architecture/puredata.cpp:292-298 | the path is cut at its last slash |
| `PdPaths.PdUI.Build` | architecture/puredata.cpp:258-298 | building any tree restores path and level and appends the labels of its widgets |
| `PdPaths.PdUI.BuildAll` | architecture/puredata.cpp:258-298 | the same for any sequence of trees |
| `PdPaths.RelativeNameMatches` | architecture/puredata.cpp:455-466 | a relative name matches exactly the labels that end with a slash and the name |
| `PdPaths.OtherNamesMatch` | architecture/puredata.cpp:455-466 | an absolute name matches only itself, the empty name everything |
| `PdPaths.LabelsAreAbsolute` | architecture/puredata.cpp:184-200 | every stored label begins with a slash |
| `Interpolation.InterpolateCtrlIn` | architecture/octave.cpp:257-286 | every segment is a straight line of equal steps from its control point, whose next step would reach the next control point, and the last index holds the last control point |
| `Interpolation.Segment` | architecture/octave.cpp:276-281 | one segment is filled with a straight line from its control point towards the next one, the rest stays |
| `Interpolation.LineAt` | architecture/octave.cpp:276-281 | the k-th value of a segment lies k/length of the way to the next control point |
| `Interpolation.StartIsFloor` | architecture/octave.cpp:268-275 | carrying the remainder makes segment j start at floor(j*(n-1)/(m-1)) |
| `Interpolation.Ends` | architecture/octave.cpp:268-275 | the segments end at the last index |
| `Interpolation.SegmentOf` | architecture/octave.cpp:268-282 | every earlier index lies in exactly one segment |
| `Interpolation.EverySampleBetween` | architecture/octave.cpp:276-281 | every value lies between its two control points |

## Left out

- Weak memory models: the scheduler's accesses are interleaved sequentially consistently; workers are at the head of their loop when a buffer begins.
- Threads, semaphores, priorities, time measurement and the adaptation of the number of threads in scheduler.cpp.
- Fairness: that the buffer can always be completed is proved, not that every fair schedule completes it.
- The generated task bodies and `compute()` of the signal processors: they are events, or parameters that say which voices are silent.
- `activate()` of the LV2 plugin re-initialises the signal processors with their zones and resets the cached port values; only the active flag is modelled.
- Malformed MIDI: note, controller, bend and tuning messages are complete and their data bytes are below 128.
- Rounding: frequencies, tunings, controllers and interpolation are exact; the frequency of a pitch is an uninterpreted function.
- Gain of VST and DSSI voices, frequency of DSSI voices, pitch bend of VST voices: written once per note and read by nobody in the model.
- Placement of DSSI and VST segments in the output buffers: the sources do not tile them.
- `Interpolation.InterpolateCtrlIn`: needs two control points; with one the source divides by zero.
- `PdPaths`: zones and ranges of widgets, and labels that are null pointers.
- Failing allocations in pure.cpp and puredata.cpp, and deldsp for instances that were not handed out.
- Graphical interfaces, audio drivers, plugin manifests, command lines, and the compiler apart from the code it generates for workers.
