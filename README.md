# Session scheduling and trial sequencing of a mental-imagery experiment

This project is a Dafny model of the core of a psychophysics application that
alternates visual-imagery training with camera-recorded measurement. It models:

- **SessionQueue** (`session_queue.dfy`): the interleaved subject x repetition
  work list, its forward-only cursor, `advance`, `reset_current` and the flat
  progress snapshot.
- **TrialProtocol** (`trial_protocol.dfy`): one trial as a frame-counted state
  machine. The phases are training flashes, an optional delay, the "close your
  eyes" and "starting" instructions, the recorded measurement beeps with their
  margin, and the three-way post-measurement instruction. A run is a method that
  returns the trace of events it emits: flips carrying the tone call and log line
  registered with `call_on_flip`, shape draws, direct tone stops, instruction
  cues, camera start and stop, beep-progress reports, log lines and waits. The
  abort flag, which another thread sets, is an oracle: the index of the first
  abort check that sees it set. `Summarize` folds a trace into the hardware it
  leaves (tones playing, camera recording), its flip count, the beep counters,
  the cues and the camera start/stop counts. The run's contract is stated over
  that summary.
- **ExperimentEngine** (`experiment_engine.dfy`): the controller commands
  (`pause`, `resume`, `confirm_next`, `request_abort`, `retry_current`,
  `reset`, `start`), the pause and confirm gates as boolean fields, and the
  worker's queue loop and per-turn shape loop, down to the choice of terminal
  state. Operator commands are a script that the worker consumes whenever it
  blocks on a gate. Each trial supplies its abort oracle, its camera frame count
  and the commands issued while it ran. Every turn is recorded (`TurnRecord`,
  `TrialRecord`) so that lemmas can speak about whole sessions.
- Helpers: frame conversion with Python's round-half-to-even and the frame-rate
  fallback (`stimulus_window.dfy`). Configuration validation, the derived
  durations, `__post_init__` and `_from_dict` over a parsed JSON value
  (`settings.dfy`). The colour parser (`shape_renderer.dfy`). The audio-device
  filter and the configured-device record (`audio_devices.dfy`). The camera's ROI
  offsets and recording flags (`camera_basler.dfy`). The control panel's
  visibility state machine (`control_panel.dfy`).

Durations and colour channels are `real`. Python integers are unbounded, so
`int` needs no wrap-around. Python's `//` by a positive divisor floors, as
Dafny's `/` does.

A consequence shown by `SessionQueueModel.ResetCurrentIsNoOp` is that the item
at the cursor is never completed: `advance` marks an item and moves past it in
one step. So `retry_current` never changes the queue while it is consistent.

## Model

| member | source | states |
|---|---|---|
| `SessionQueueModel.Repeat` | core/session_queue.py:48-53 | `list * n` is empty for n <= 0 and has length `|s| * n` otherwise |
| `SessionQueueModel.RepeatAt` | core/session_queue.py:48-53 | element k of the repeated stimulus list is element `k mod |s|` of the original |
| `SessionQueueModel.ToStimuli` | core/session_queue.py:48-53 | image mode keeps raw names and shape mode makes enum stimuli, with the same names in the same order |
| `SessionQueueModel.SessionQueue.constructor` | core/session_queue.py:38-63 | `|subjects| * repetitions` items (none for repetitions < 1), cursor 0, nothing completed; item k is subject `k mod n` in repetition `k / n + 1` with the repeated stimulus list |
| `SessionQueueModel.SessionQueue.Current` | core/session_queue.py:69-85 | `current` is None exactly when `is_done` (cursor >= total), otherwise the item at the cursor |
| `SessionQueueModel.AdvanceState` | core/session_queue.py:87-92 | when not done: the current item becomes completed, the cursor moves by exactly 1 and every other item is unchanged; when done: no change |
| `SessionQueueModel.SessionQueue.Advance` | core/session_queue.py:87-92 | the queue's new state is `AdvanceState` of the old one, the work is unchanged, and the new current item is returned |
| `SessionQueueModel.AdvancePreserves` | core/session_queue.py:87-92 | advance keeps the cursor <= total and "completed exactly before the cursor", and changes no subject, repetition or stimulus list |
| `SessionQueueModel.ResetState` | core/session_queue.py:94-97 | reset_current clears only the current item's flag and never moves the cursor |
| `SessionQueueModel.SessionQueue.ResetCurrent` | core/session_queue.py:94-97 | the queue's new state is `ResetState` of the old one |
| `SessionQueueModel.ResetCurrentIsNoOp` | core/session_queue.py:87-97 | on a consistent queue reset_current changes nothing |
| `SessionQueueModel.AdvanceTimesSpec` | core/session_queue.py:87-92 | n advances move the cursor by n, stopping at total, and keep the queue consistent with unchanged work |
| `SessionQueueModel.AdvanceAllCompletes` | core/session_queue.py:87-92 | from a fresh queue, `total` advances leave it done with every item completed |
| `SessionQueueModel.SessionQueue.ToProgress` | core/session_queue.py:99-111 | the snapshot holds the cursor and, per item in order, its subject, repetition and completed flag |
| `TrialProtocolModel.FrameTableFor` | core/trial_protocol.py:69-82 | each phase count is `duration_to_frames` of its duration (5 s, 2 s, 1 s for the waits and margin); the delay count is 0 exactly when the delay is <= 0 |
| `TrialProtocolModel.TrialProtocol.constructor` | core/trial_protocol.py:54-82 | the frame table is computed once from the timing and the window's rate, and the abort flag starts cleared |
| `TrialProtocolModel.TrialProtocol.RequestAbort` | core/trial_protocol.py:91-92 | sets the abort flag |
| `TrialProtocolModel.Frames` | core/trial_protocol.py:186-189 | a checked frame loop stops exactly at the first abort check that fires, flipping once per check before it, with sound and camera untouched |
| `TrialProtocolModel.ShapeShown` | core/trial_protocol.py:152-172 | the shape's onset flip carries the training tone's play with its ON line and is followed by beep report b0+1; a sustain abort stops the tone directly |
| `TrialProtocolModel.TrainingFlash` | core/trial_protocol.py:148-189 | one flash makes `shape + blank - 1` checks and `shape + blank` flips; the clear flip carries the tone's stop with its OFF line; every exit leaves no tone playing |
| `TrialProtocolModel.RoundsProduct` | core/trial_protocol.py:148 | `reps` rounds of k frames are `reps * k` frames |
| `TrialProtocolModel.TrainingPhase` | core/trial_protocol.py:148-189 | training performs `Rounds(reps, shape + blank)` flips (`reps * (shape + blank)`, by `RoundsProduct`), reports beeps 1..reps in order, aborts exactly when a check in its range fires, and never leaves a tone playing |
| `TrialProtocolModel.DelayPhase` | core/trial_protocol.py:191-200 | no checks without delay frames; otherwise one check and then `delay` checked blank flips |
| `TrialProtocolModel.Announce` | core/trial_protocol.py:206-229 | an instruction cue and its log line, then n checked frames |
| `TrialProtocolModel.InstructionPhase` | core/trial_protocol.py:202-233 | "close your eyes" then "starting", with 5 s and 2 s of flips; an abort leaves a prefix of the two cues and never starts the camera |
| `TrialProtocolModel.Interlude` | core/trial_protocol.py:191-233 | delay and instructions together: `delay + closeEyesWait + startingWait` flips, no tone, no camera |
| `TrialProtocolModel.PreRecording` | core/trial_protocol.py:145-233 | the TRIAL_START line comes first; any abort before measurement returns with the camera never started and no tone playing |
| `TrialProtocolModel.BeepOnset` | core/trial_protocol.py:250-272 | the beep's onset flip carries the measurement tone's play with its log line; a sustain abort stops the tone and then the camera |
| `TrialProtocolModel.MeasurementBeepStep` | core/trial_protocol.py:250-285 | one beep is `beep + silence` flips, the stop registered for the flip after the sustain; a silence abort stops the camera |
| `TrialProtocolModel.MeasurementBeeps` | core/trial_protocol.py:250-285 | `reps` beeps report counters b0+1..b0+reps in order; an abort leaves the camera stopped exactly once and no tone playing |
| `TrialProtocolModel.MarginAndStop` | core/trial_protocol.py:287-299 | the margin's flips, then stop_recording once and the RECORDING_STOP line with the reported frame count |
| `TrialProtocolModel.BeepsAndMargin` | core/trial_protocol.py:250-299 | every way out of the recorded part stops the camera exactly once |
| `TrialProtocolModel.MeasurementPhase` | core/trial_protocol.py:235-299 | the camera starts (at `fps`) before the first beep and is stopped exactly once on every path |
| `TrialProtocolModel.PostFor` | core/trial_protocol.py:301-330 | the cue is `PostCue`'s choice: not last shape: open_your_eyes, 5 s; last shape of the last queue item: experiment_completed, `max(5, duration + 1)`; otherwise next_participant_please, 5 s |
| `TrialProtocolModel.PostMeasurement` | core/trial_protocol.py:306-336 | the chosen cue, its log line, its wait and TRIAL_END, with no flip and no hardware change |
| `TrialProtocolModel.MeasureAndPost` | core/trial_protocol.py:235-337 | succeeds exactly when no measurement check fires; the post instruction is played only then |
| `TrialProtocolModel.Trial` | core/trial_protocol.py:128-337 | succeeds iff no check fires; beeps reported are 1..b in order, all of them on success, and every beep report in the trace carries the given denominator; camera started iff no pre-recording abort and stopped as often as started; exact flip total on success |
| `TrialProtocolModel.TrialProtocol.Run` | core/trial_protocol.py:94-337 | returns True exactly when no abort check saw the flag, and leaves the flag set exactly when it returns False; every beep report's denominator is the raw sum `training_repetitions + measurement_repetitions`; the first line is TRIAL_START with the stimulus name (the corrected name for a Shape enum, where line 125 as written raises; see Findings); every return leaves no tone playing and no recording open; on success the flip count is the sum of all phases and the last cue is `PostFor`'s choice |
| `TrialProtocolModel.ShapeNameAsWritten` | core/trial_protocol.py:124-125 | as written, the name line raises for every Shape enum and gives the string otherwise |
| `TrialProtocolModel.TrialShapeName` | core/trial_protocol.py:124-125 | the stimulus name, agreeing with the line as written wherever that line does not raise |
| `TrialProtocolModel.ShapeNameAsWrittenRaisesOnEnums` | core/trial_protocol.py:124-125 | the line as written raises on every enum and agrees with the corrected name on raw names |
| `TrialProtocolModel.TrainingFlipsMatchDuration` | config/settings.py:41-45 | when shape and blank durations are whole frame counts, the training flips last exactly `training_phase_duration` |
| `TrialProtocolModel.MeasurementFlipsMatchDuration` | config/settings.py:47-51 | likewise the measurement flips last exactly `measurement_phase_duration` |
| `SettingsModel.TotalTrialDurationCoversPhases` | config/settings.py:41-60 | with non-negative settings each phase duration is non-negative and within the total, which adds the two cue durations |
| `ExperimentEngineModel.Engine.constructor` | core/experiment_engine.py:38-53 | Idle, pause gate open, confirm gate closed, no abort, no protocol, no window |
| `ExperimentEngineModel.Engine.Reset` | core/experiment_engine.py:103-129 | abort cleared, pause gate open, confirm gate closed, Idle, protocol and window dropped |
| `ExperimentEngineModel.ResetForgets` | core/experiment_engine.py:126-129 | reset's flags do not depend on the previous state |
| `ExperimentEngineModel.Engine.Start` | core/experiment_engine.py:131-137 | reset, then Running |
| `ExperimentEngineModel.Engine.Pause` | core/experiment_engine.py:139-150 | pause gate closed, Paused, the protocol's abort flag set when a protocol exists |
| `ExperimentEngineModel.Engine.Resume` | core/experiment_engine.py:152-159 | the protocol's abort flag cleared, pause gate open, Running |
| `ExperimentEngineModel.ResumeUndoesPause` | core/experiment_engine.py:139-159 | resume after pause reopens the gate and re-enables the protocol, leaving abort and the confirm gate as they were |
| `ExperimentEngineModel.Engine.ConfirmNext` | core/experiment_engine.py:161-163 | opens the confirm gate |
| `ExperimentEngineModel.Engine.RequestAbort` | core/experiment_engine.py:165-172 | abort flag set, both gates open, abort passed to the protocol |
| `ExperimentEngineModel.AbortIdempotent` | core/experiment_engine.py:165-172 | a second request_abort changes nothing |
| `ExperimentEngineModel.AbortReleasesGates` | core/experiment_engine.py:165-172 | after request_abort both gates are open, the state is unchanged and an existing protocol is told to stop |
| `ExperimentEngineModel.AbortFlagAfterCommands` | core/experiment_engine.py:139-178 | after any command script the abort flag is set iff it was set before or the script holds an abort; no command clears it |
| `ExperimentEngineModel.Engine.RetryCurrent` | core/experiment_engine.py:174-178 | resets the current queue item, which leaves a consistent queue unchanged |
| `ExperimentEngineModel.Engine.CheckPause` | core/experiment_engine.py:430-434 | returns at once when the gate is open; otherwise takes commands until one reopens it (resume or abort) or the script ends |
| `ExperimentEngineModel.PauseGateStaysClosed` | core/experiment_engine.py:430-434 | without a resume or an abort a closed pause gate stays closed |
| `ExperimentEngineModel.Engine.WaitConfirm` | core/experiment_engine.py:260-268 | enters WaitingConfirm and clears the gate before waiting, so only a confirm or abort issued afterwards releases it |
| `ExperimentEngineModel.ConfirmGateStaysClosed` | core/experiment_engine.py:161-169 | without a confirm or an abort a closed confirm gate stays closed |
| `ExperimentEngineModel.IsLast` | core/experiment_engine.py:276-300 | `is_last_queue_item` / `is_last_shape` hold exactly when the index is the last one |
| `ExperimentEngineModel.ShapeInstance` | core/experiment_engine.py:305-309 | the shape's occurrences in `shapes[0..shape_idx]`, between 1 and `shape_idx + 1` |
| `ExperimentEngineModel.ShapeInstancesDistinct` | core/experiment_engine.py:305-315 | two positions of the same shape in a turn get increasing instance numbers, so no two videos of a turn share name and instance |
| `ExperimentEngineModel.Engine.RunProtocol` | core/experiment_engine.py:299-338 | name, instance and last flags computed as the engine does; succeeds iff no abort check fires, leaving the protocol's flag set iff it failed; the trace starts with TRIAL_START, leaves no tone or recording open, reports beeps 1..b (all of them on success) and ends on success with `PostCue`'s cue; each report is forwarded as `shape_idx * beeps_per_shape + cur` |
| `ExperimentEngineModel.Engine.RunShape` | core/experiment_engine.py:299-352 | `RunProtocol`'s record with the commands issued during the trial applied; the video is discarded iff the run failed and no abort was set |
| `ExperimentEngineModel.ForwardedRun` | core/experiment_engine.py:322-337 | a run forwards at most `beeps_per_shape` reports, all of them on success, and report k as `shape_idx * beeps_per_shape + k + 1` |
| `ExperimentEngineModel.RunsShapesRise` | core/experiment_engine.py:288-373 | the shape index of a turn's runs never decreases, and rises strictly after a successful run |
| `ExperimentEngineModel.ForwardedInTurn` | core/experiment_engine.py:322-337 | when the beeps of a shape do not outnumber `beeps_per_shape` (neither repetition count negative; otherwise `range` clamps one count to 0 and counters of consecutive shapes overlap): every forwarded counter lies in 1..`total_beeps_in_turn`; counters of a successful run are below all later ones; within one shape two counters are equal iff they are the same report |
| `ExperimentEngineModel.Engine.PauseGate` | core/experiment_engine.py:289-297 | proceeds only with the abort flag clear and the pause gate open; a pending abort stops at once without taking commands; blocks only when the script ends with the gate closed |
| `ExperimentEngineModel.Engine.RecordRun` | core/experiment_engine.py:299-373 | appends one run to the turn's records, keeping their facts and traces; the reached index moves by one iff it succeeded |
| `ExperimentEngineModel.TurnRetriesSameShape` | core/experiment_engine.py:340-373 | within a turn, a successful run is followed by the next shape, a failed one without abort is discarded and followed by the same shape |
| `ExperimentEngineModel.RunsCompleteInOrder` | core/experiment_engine.py:288-373 | the successful runs of a turn completed shapes 0, 1, ... up to the reached index, each exactly once and in order |
| `ExperimentEngineModel.Engine.Turn` | core/experiment_engine.py:285-373 | `shape_idx` advances only on success; all_ok holds iff every shape succeeded; a turn that ends otherwise (not blocked) has the abort flag set |
| `ExperimentEngineModel.AdvancedTurnCompletedEveryShape` | core/experiment_engine.py:375-378 | a turn that advanced the queue completed every shape of its item once, in order |
| `ExperimentEngineModel.Engine.RunTurn` | core/experiment_engine.py:275-378 | the turn's runs keep their facts and traces; when every shape succeeded the cursor moves by one and the saved snapshot has the new cursor and, for each item, its subject, repetition and whether it lies at or before the turn's item; otherwise nothing is saved and the queue is unchanged |
| `ExperimentEngineModel.Engine.SessionStep` | core/experiment_engine.py:248-378 | the cursor moves by one and progress is saved exactly when the turn's shapes all succeeded, the snapshot holding the items up to the turn's as completed; otherwise queue and cursor are unchanged |
| `ExperimentEngineModel.AdvancedCount` | core/experiment_engine.py:248-378 | every turn but possibly the last advanced the queue |
| `ExperimentEngineModel.LoopStep` | core/experiment_engine.py:248-378 | one pass of the loop with no abort pending keeps the loop's facts (turn k on item start + k, cursor moved by the successful turns, unchanged work), and a completed turn either sets the abort flag or moves the cursor forward |
| `ExperimentEngineModel.Engine.LoopTurn` | core/experiment_engine.py:248-378 | one pass keeps the loop's facts; a pass that ran a turn either sets the abort flag or moves the cursor forward; a pass that breaks adds no turn |
| `ExperimentEngineModel.Engine.SessionLoop` | core/experiment_engine.py:248-378 | turn k takes queue item start + k; the cursor moved by the number of successful turns; the loop ends only on abort or an exhausted queue |
| `ExperimentEngineModel.Engine.RunSession` | core/experiment_engine.py:182-417 | a setup failure gives Error; otherwise Aborted iff the abort flag is set, else Completed with the queue done; on every finished path the protocol is dropped, and on every finished path that created a window it is closed exactly once (when the window fails to open there is none to close) |
| `StimulusWindowModel.RoundHalfEven` | stimulus/stimulus_window.py:169 | Python's round: within 0.5 of x, and even on a tie |
| `StimulusWindowModel.RoundHalfEvenUnique` | stimulus/stimulus_window.py:169 | those two properties determine the rounded value |
| `StimulusWindowModel.RoundHalfEvenMonotone` | stimulus/stimulus_window.py:169 | rounding is monotone |
| `StimulusWindowModel.DurationToFrames` | stimulus/stimulus_window.py:167-169 | at least 1; equal to `round(d * rate)` whenever that is >= 1, and 1 otherwise |
| `StimulusWindowModel.DurationToFramesMonotone` | stimulus/stimulus_window.py:167-169 | for a fixed rate a longer duration never gets fewer frames |
| `StimulusWindowModel.DurationToFramesExact` | stimulus/stimulus_window.py:167-169 | a duration of exactly k >= 1 frames converts to k |
| `StimulusWindowModel.FrameDuration` | stimulus/stimulus_window.py:162-165 | positive, and `frame_duration * frame_rate == 1` |
| `StimulusWindowModel.AcceptedRate` | stimulus/stimulus_window.py:138-155 | the measured rate when it lies in [30, 240], else 60; always in [30, 240] |
| `StimulusWindowModel.MeasureFrameRate` | stimulus/stimulus_window.py:115-155 | 60 in dev mode with no flips; 60 after a failing flip; otherwise 110 flips and the accepted rate; always in [30, 240] |
| `StimulusWindowModel.StimulusWindow.constructor` | stimulus/stimulus_window.py:53-57 | an open window, an empty stimulus table, a rate in [30, 240] |
| `StimulusWindowModel.StimulusWindow.Prepare` | stimulus/stimulus_window.py:171-181 | registers the stimulus under its name |
| `StimulusWindowModel.StimulusWindow.Close` | stimulus/stimulus_window.py:206-215 | empties the table and closes the window once; a second call closes nothing more |
| `SettingsModel.DefaultOutputDir` | config/settings.py:96-100 | the default output directory is non-empty |
| `SettingsModel.WithDefaultOutputDir` | config/settings.py:96-100 | an empty output directory is replaced by the default; a non-empty one is kept |
| `SettingsModel.MessageInjective` | config/settings.py:102-124 | different failures report different messages |
| `SettingsModel.MessagesDetermineErrors` | config/settings.py:102-124 | the returned message list names the failures one to one |
| `SettingsModel.Validate` | config/settings.py:102-124 | the error list is exactly the failing rules in check order |
| `SettingsModel.ValidateReportsEachRule` | config/settings.py:105-123 | each error is reported iff its rule is broken |
| `SettingsModel.ErrorsUpToOrdered` | config/settings.py:102-124 | errors appear in check order, each at most once |
| `SettingsModel.ImageModeIgnoresShapes` | config/settings.py:105-109 | image mode never reports the missing-shapes error |
| `SettingsModel.ValidateEmptyIff` | config/settings.py:102-124 | validate returns no error iff every rule holds |
| `SettingsModel.DefaultConfigIsValid` | config/settings.py:80-124 | the default configuration passes validation |
| `SettingsModel.Assemble` | config/settings.py:168-181 | the top-level fields with their defaults go through `__post_init__`, so the output directory is non-empty |
| `SettingsModel.FromDict` | config/settings.py:143-181 | a decoded configuration always has a non-empty output directory |
| `SettingsModel.CameraRoundTrip` | config/settings.py:143-148 | decoding the camera section of a saved configuration gives it back |
| `SettingsModel.TimingRoundTrip` | config/settings.py:150-154 | the same for timing |
| `SettingsModel.AudioRoundTrip` | config/settings.py:156-160 | the same for audio |
| `SettingsModel.StimulusRoundTrip` | config/settings.py:162-166 | the same for the stimulus section |
| `SettingsModel.AssembleRoundTrip` | config/settings.py:168-181 | the top-level fields of a saved configuration decode to themselves |
| `SettingsModel.FromDictToDict` | config/settings.py:126-181 | loading a saved configuration gives it back |
| `SettingsModel.FromDictEmptyIsDefault` | config/settings.py:143-181 | an empty document gives the all-defaults configuration |
| `SettingsModel.CameraIgnoresUnknownKey` | config/settings.py:145-148 | a key that is not a camera field is dropped |
| `SettingsModel.TimingIgnoresUnknownKey` | config/settings.py:151-154 | a key that is not a timing field is dropped |
| `SettingsModel.AudioIgnoresUnknownKey` | config/settings.py:157-160 | a key that is not an audio field is dropped |
| `SettingsModel.StimulusIgnoresUnknownKey` | config/settings.py:163-166 | a key that is not a stimulus field is dropped |
| `SettingsModel.AssembleIgnoresUnknownKey` | config/settings.py:168-181 | a top-level key that is not a field leaves the top-level fields unchanged |
| `SettingsModel.FromDictIgnoresUnknownKey` | config/settings.py:143-181 | a top-level key that is not a field does not change the result |
| `ShapeRendererModel.StripHashes` | stimulus/shape_renderer.py:18 | every leading '#' is removed and what remains is a suffix not starting with '#' |
| `ShapeRendererModel.HexByte` | stimulus/shape_renderer.py:21 | two hexadecimal digits give `16 * hi + lo`, below 256; anything else is rejected |
| `ShapeRendererModel.Channel` | stimulus/shape_renderer.py:22 | a byte maps into [-1, 1], with 0 to -1 and 255 to 1 |
| `ShapeRendererModel.ConvertSix` | stimulus/shape_renderer.py:21-22 | three channels from pairs [0:2], [2:4], [4:6] in order, or an error when a pair is not hexadecimal |
| `ShapeRendererModel.ConvertSixSpec` | stimulus/shape_renderer.py:21-22 | six characters convert iff all are hexadecimal digits, and then all three channels lie in [-1, 1] |
| `ShapeRendererModel.HexToPsychopy` | stimulus/shape_renderer.py:16-22 | white unless exactly six characters remain after the '#'s, otherwise their conversion |
| `ShapeRendererModel.HexToPsychopyOfFormatted` | stimulus/shape_renderer.py:16-22 | '#rrggbb' written from three bytes parses to their three channels |
| `ShapeRendererModel.PythonHexByte` | stimulus/shape_renderer.py:21 | `int(pair, 16)` as Python reads it, with ASCII digits and any `str.isspace` white space, agrees with the hexadecimal reading on two digits |
| `ShapeRendererModel.HexToPsychopyAsWritten` | stimulus/shape_renderer.py:16-22 | the line as written agrees with the hexadecimal reading wherever that one succeeds |
| `ShapeRendererModel.AsWrittenChannelBelowRange` | stimulus/shape_renderer.py:21-22 | "#-f0000" is rejected by the hexadecimal reading, but the line as written accepts it and yields a channel below -1 |
| `AudioDevicesModel.ListAudioDevices` | audio/__init__.py:58-78 | a failing enumeration gives the empty list; otherwise the loop's result is the first-occurrence list of offerable names |
| `AudioDevicesModel.CollectedMembers` | audio/__init__.py:70-75 | a name is listed iff some device with an output channel and no legacy name carries it |
| `AudioDevicesModel.CollectedNoDuplicates` | audio/__init__.py:68-75 | no name is listed twice |
| `AudioDevicesModel.CollectedInFirstOccurrenceOrder` | audio/__init__.py:68-75 | names are listed in the order of their first offerable device |
| `AudioDevicesModel.CollectedExcludesLegacy` | audio/__init__.py:64-73 | no listed name contains "Microsoft Sound Mapper" or "Primary Sound Driver" |
| `AudioDevicesModel.AudioPrefs.constructor` | audio/__init__.py:10 | no device recorded at first |
| `AudioDevicesModel.AudioPrefs.Configure` | audio/__init__.py:14-36 | low-latency backends; the device is written and recorded only for a non-empty name; nothing changes without psychopy |
| `AudioDevicesModel.AudioPrefs.ReconfigureFallback` | audio/__init__.py:39-55 | safe backends, a set device preference emptied, the recorded device reset to None |
| `CameraModel.ManualOffset` | hardware/camera_basler.py:110-113 | `(o // 2) * 2` is even, at most o and at least o - 1 |
| `CameraModel.ManualOffsetUnique` | hardware/camera_basler.py:110-113 | it is the only even value in [o - 1, o] |
| `CameraModel.CenteredOffset` | hardware/camera_basler.py:114-118 | the auto-centring offset is even; for a size within the sensor it keeps the ROI inside with margins differing by less than 4 |
| `CameraModel.CenteredOffsetUnique` | hardware/camera_basler.py:114-118 | it is the only even offset with that margin property |
| `CameraModel.RoiOffset` | hardware/camera_basler.py:110-126 | a non-negative request is manual, a negative one centres |
| `CameraModel.Camera.ApplySettings` | hardware/camera_basler.py:101-126 | the size is written and each offset as `RoiOffset` computes it; recording state untouched |
| `CameraModel.StartState` | hardware/camera_basler.py:229-234 | a no-op while recording; otherwise zeroes the frame count, clears stop and raises the flag |
| `CameraModel.StartIdempotent` | hardware/camera_basler.py:229-231 | a second start changes nothing |
| `CameraModel.Camera.StartRecording` | hardware/camera_basler.py:229-240 | the recording fields become `StartState` of the old ones |
| `CameraModel.GrabState` | hardware/camera_basler.py:257-264 | a successful grab is counted only while recording and before stop |
| `CameraModel.Camera.RecordLoopGrab` | hardware/camera_basler.py:257-268 | the recording fields become `GrabState` of the old ones |
| `CameraModel.LoopExitState` | hardware/camera_basler.py:249-273 | after a writer failure or a stop request the flag is cleared |
| `CameraModel.Camera.RecordLoopExit` | hardware/camera_basler.py:242-273 | the recording fields become `LoopExitState` of the old ones |
| `CameraModel.StopState` | hardware/camera_basler.py:275-279 | stop sets the stop request and keeps the count |
| `CameraModel.Camera.StopRecording` | hardware/camera_basler.py:275-279 | returns the current frame count and requests the stop |
| `CameraModel.GrabsCount` | hardware/camera_basler.py:256-264 | while recording the counter grows by exactly the successful grabs |
| `CameraModel.GrabsAfterStop` | hardware/camera_basler.py:257-264 | after the stop request no grab is counted |
| `CameraModel.StartGrabStop` | hardware/camera_basler.py:229-279 | stop_recording reports exactly the frames grabbed since start, and the loop then clears the flag |
| `CameraModel.Camera.constructor` | hardware/camera_basler.py:34-46 | no handle, not recording, no frames |
| `CameraModel.Camera.IsConnected` | hardware/camera_basler.py:201-202 | connected iff a handle exists and reports open |
| `CameraModel.Camera.IsRecording` | hardware/camera_basler.py:281-282 | reports the recording flag |
| `ControlPanelModel.TogglePause` | gui/panels/control_panel.py:79-87 | emits resume when paused and pause otherwise, sets the caption, and flips `_is_paused` |
| `ControlPanelModel.TogglesAlternate` | gui/panels/control_panel.py:79-87 | from unpaused, n clicks emit pause, resume, pause, ... and leave the flag set iff n is odd |
| `ControlPanelModel.ToggleTwice` | gui/panels/control_panel.py:79-87 | two clicks restore the pause flag and leave the visible widgets alone |
| `ControlPanelModel.Preparing` | gui/panels/control_panel.py:89-97 | sets `_preparing` and shows only the wait label |
| `ControlPanelModel.ForState` | gui/panels/control_panel.py:99-134 | Idle: Start only; Running: the wait label while preparing, else Pause and Stop; Paused: Pause (Resume caption) and Stop, flag set; WaitingConfirm: Confirm, Skip and Stop, preparing cleared; terminal states: nothing, preparing cleared |
| `ControlPanelModel.ForStateVisibilityDependsOnlyOnStateAndPreparing` | gui/panels/control_panel.py:101-107 | everything is hidden first, so visibility depends only on the state and `_preparing` |
| `ControlPanelModel.ForStateExclusive` | gui/panels/control_panel.py:99-134 | the wait label and Start are each shown alone, and Pause never beside Confirm |
| `ControlPanelModel.ForStateStopVisible` | gui/panels/control_panel.py:99-134 | Stop is shown iff running and not preparing, paused, or waiting for confirmation |
| `ControlPanelModel.IdleState` | gui/panels/control_panel.py:136-141 | clears `_is_paused`, resets the caption and shows only Start |
| `ControlPanelModel.ControlPanel.constructor` | gui/panels/control_panel.py:23-77 | only Start is visible, not paused, not preparing |
| `ControlPanelModel.ControlPanel.OnPauseToggle` | gui/panels/control_panel.py:79-87 | the panel's new state is `TogglePause` of the old one |
| `ControlPanelModel.ControlPanel.SetPreparing` | gui/panels/control_panel.py:89-97 | the panel's new state is `Preparing` of the old one |
| `ControlPanelModel.ControlPanel.UpdateForState` | gui/panels/control_panel.py:99-134 | the panel's new state is `ForState` of the old one |
| `ControlPanelModel.ControlPanel.SetIdle` | gui/panels/control_panel.py:136-141 | the panel's new state is `IdleState` of the old one |

## Left out

- Threads: the QThread worker, the `threading.Event` gates, the atomic abort flag and the camera's record thread become fields and explicit steps. Races and join timeouts are not modelled.
- The PsychoPy window itself: creation, screen-resolution detection, the "Get ready" message, vsync and `callOnFlip` internals, and `perf_counter` timing. A flip is an abstract event, and the elapsed time of the measurement is an input.
- The phase-change and stimulus-mirror callbacks of a trial, and the engine's progress-text and state signals. They only inform the GUI. Subject and repetition, the same on every log line of a trial, are left implicit.
- The audio manager: tones are named, and their playback is two flags of the hardware state, one per tone. The instruction length used for the final wait is an input (`completedDuration`). Tone pre-generation at `frames * frame_duration` is covered only by the two `FlipsMatchDuration` lemmas.
- `precise_sleep` waits become `Sleep` events with their durations, not flips.
- File-system effects: deleting a discarded video is the `discarded` flag of a run, and saving progress is the `saved` snapshot of a turn. Session directories, video paths, the Excel and CSV loggers, the experiment monitor, app memory, and JSON file reading and writing are not modelled.
- `ExperimentEngineModel.Engine.RunSession`: only failures while setting up the window, stimuli, audio or protocol lead to Error. An exception raised inside the queue loop (a camera or audio failure during a trial) is not modelled. When the command script or the trial inputs run out while the worker waits, the run ends as `Stalled` instead of blocking forever.
- `setup()` builds session directories and loggers, which are not modelled. The queue it builds is passed to the engine's constructor.
- `Shape.from_string` is left abstract: a shape-mode stimulus keeps its name, and the enum module is not part of this model.
- `SettingsModel.FromDict`: a value of the wrong JSON type gives None, whereas Python would keep it unchecked in the dataclass.
- The camera's connection, device enumeration, the pypylon settings other than the ROI, the preview grab thread and the OpenCV video writer.
- The control panel's Qt widgets and the signals that its other buttons emit directly. Button texts other than the pause caption are not modelled.
- Shape vertex geometry and PsychoPy stimulus construction in the shape renderer.
- `ShapeRendererModel.PythonHexByte`: only ASCII digits are read. `int()` also accepts the decimal digits of other scripts, such as Arabic-Indic or full-width digits, and those pairs are rejected here although Python would read them. White space follows `str.isspace` in full.
- `ShapeRendererModel.HexToPsychopyAsWritten`: inherits the same ASCII-digit restriction, through `PythonHexByte`.

## Findings

| source | as written | input that shows it | evidently intended | confidence | as-written member | corrected member |
|---|---|---|---|---|---|---|
| core/trial_protocol.py:125 | `shape_name = shape_name if hasattr(shape, "value") else str(shape)` reads the local `shape_name` before it is assigned | any Shape enum stimulus, that is every trial of a shape-mode session: the run raises before TRIAL_START and the engine ends in Error | `shape.value` for an enum, as the engine computes it at core/experiment_engine.py:303 | high; not executed | `TrialProtocolModel.ShapeNameAsWrittenRaisesOnEnums` | `TrialProtocolModel.TrialShapeName` |
| stimulus/shape_renderer.py:21 | each pair is parsed with `int(pair, 16)`, which also accepts a sign or white space around a single digit | "#-f0000" yields a red channel of -15/127.5 - 1, below -1 | only two hexadecimal digits are accepted, so every channel lies in [-1, 1] | medium; not executed | `ShapeRendererModel.AsWrittenChannelBelowRange` | `ShapeRendererModel.ConvertSixSpec` |
