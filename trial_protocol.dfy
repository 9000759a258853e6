/** One shape trial (core/trial_protocol.py): a frame-counted sequence of
    training flashes, an optional delay, the spoken instructions, the recorded
    measurement beeps and a post-measurement instruction. A run is modelled as
    the trace of events it emits; the abort flag, set by another thread, is an
    oracle naming the first abort check (counted from 0) that sees it set. */
module TrialProtocolModel {
  import opened Wrappers
  import opened StimulusWindowModel
  import opened SettingsModel
  import opened SessionQueueModel

  // ------------------------------------------------------------------ events

  datatype Tone = TrainingTone | MeasurementTone

  /** The instruction recordings. */
  datatype Cue = CloseYourEyes | Starting | OpenYourEyes | ExperimentCompleted | NextParticipantPlease

  /** Event-log lines (subject and repetition, the same on every line, are left implicit). */
  datatype LogEvent =
    | TrialStart(shapeName: string)
    | TrainingShapeOn(flash: int)
    | TrainingShapeOff(flash: int)
    | InstructionCloseEyes
    | InstructionStarting
    | RecordingStart
    | MeasurementBeep(beep: int)
    | RecordingStop(frames: int)
    | InstructionOpenEyes
    | InstructionCompleted
    | InstructionNextParticipant
    | TrialEnd(frames: int)

  /** The audio call registered with call_on_flip for the next flip, if any. */
  datatype ToneCall = NoCall | CallPlay(tone: Tone) | CallStop(tone: Tone)

  datatype Event =
    /** win.flip(), firing the tone call and then the log line registered for it */
    | Flip(call: ToneCall, log: Option<LogEvent>)
    | DrawShape(name: string)
    /** audio.stop outside a flip */
    | StopTone(tone: Tone)
    | PlayInstruction(cue: Cue)
    | StartRecording(fps: real)
    | StopRecording
    | BeepProgress(current: int, total: int)
    | Log(event: LogEvent)
    | Sleep(seconds: real)

  // --------------------------------------------- the hardware a trace drives

  /** Which of the two tones is playing, whether the camera records, and
      whether a shape has been drawn into the back buffer since the last flip. */
  datatype Machine = Machine(training: bool, measurement: bool, recording: bool, drawn: bool)

  const Quiet := Machine(false, false, false, false)
  const Recording := Machine(false, false, true, false)
  /** Recording with the measurement tone sounding. */
  const Beeping := Machine(false, true, true, false)
  /** The training tone sounding, the camera off. */
  const Sounding := Machine(true, false, false, false)

  function Plays(m: Machine, t: Tone): bool {
    match t
    case TrainingTone => m.training
    case MeasurementTone => m.measurement
  }

  function SetTone(m: Machine, t: Tone, on: bool): Machine {
    match t
    case TrainingTone => m.(training := on)
    case MeasurementTone => m.(measurement := on)
  }

  /** The hardware after the tone call registered for a flip has fired. */
  function Fired(m: Machine, call: ToneCall): Machine {
    match call
    case NoCall => m
    case CallPlay(t) => SetTone(m, t, true)
    case CallStop(t) => SetTone(m, t, false)
  }

  function Step(m: Machine, e: Event): Machine {
    match e
    case Flip(call, _) => Fired(m, call).(drawn := false)
    case DrawShape(_) => m.(drawn := true)
    case StopTone(t) => SetTone(m, t, false)
    case StartRecording(_) => m.(recording := true)
    case StopRecording => m.(recording := false)
    case _ => m
  }

  /** The tone call and log line registered together for one flip: a tone
      onset with its ON line, a training offset with its OFF line, or nothing. */
  predicate Paired(call: ToneCall, log: Option<LogEvent>) {
    match call
    case NoCall => log.None?
    case CallPlay(TrainingTone) => log.Some? && log.value.TrainingShapeOn?
    case CallStop(TrainingTone) => log.Some? && log.value.TrainingShapeOff?
    case CallPlay(MeasurementTone) => log.Some? && log.value.MeasurementBeep?
    case CallStop(MeasurementTone) => log.None?
  }

  /** What each event requires of the hardware. After every flip the
      training tone plays exactly when that flip showed a shape, a measurement
      tone only plays while the camera records, and only a playing tone is
      stopped; recording starts only when stopped and stops only when started. */
  predicate StepOk(m: Machine, e: Event) {
    match e
    case Flip(call, log) =>
      && (Fired(m, call).training <==> m.drawn)
      && (Fired(m, call).measurement ==> m.recording)
      && Paired(call, log)
    case StopTone(t) => Plays(m, t)
    case StartRecording(_) => !m.recording
    case StopRecording => m.recording
    case _ => true
  }

  // ------------------------------------------------------- trace summaries

  /** What a trace did: the hardware it leaves, whether every event met
      StepOk, its flips, the beep counters reported, the instructions played,
      and its start_recording and stop_recording calls. */
  datatype Summary = Summary(hw: Machine, ok: bool, flips: nat, beeps: seq<int>, cues: seq<Cue>,
                             starts: nat, stops: nat)

  /** The summary of the empty trace, started in m. */
  function Start(m: Machine): Summary {
    Summary(m, true, 0, [], [], 0, 0)
  }

  /** The summary extended by one event. */
  function Add(s: Summary, e: Event): Summary {
    Summary(Step(s.hw, e), s.ok && StepOk(s.hw, e),
            s.flips + (if e.Flip? then 1 else 0),
            s.beeps + (if e.BeepProgress? then [e.current] else []),
            s.cues + (if e.PlayInstruction? then [e.cue] else []),
            s.starts + (if e.StartRecording? then 1 else 0),
            s.stops + (if e.StopRecording? then 1 else 0))
  }

  /** The summary of a trace started in m. */
  function Summarize(m: Machine, t: seq<Event>): Summary
    decreases |t|
  {
    if t == [] then Start(m) else Add(Summarize(m, t[..|t| - 1]), t[|t| - 1])
  }

  /** The summary of a trace followed by one that starts where it left the hardware. */
  function Join(s1: Summary, s2: Summary): Summary {
    Summary(s2.hw, s1.ok && s2.ok, s1.flips + s2.flips, s1.beeps + s2.beeps, s1.cues + s2.cues,
            s1.starts + s2.starts, s1.stops + s2.stops)
  }

  /** Every beep report in t is out of `total`. */
  predicate ReportsOutOf(t: seq<Event>, total: int) {
    forall e | e in t && e.BeepProgress? :: e.total == total
  }

  /** A trace whose summary holds no beep counter reports no beep at all. */
  lemma {:induction false} Unreported(m: Machine, t: seq<Event>, total: int)
    requires Summarize(m, t).beeps == []
    ensures ReportsOutOf(t, total)
    decreases |t|
  {
    if t != [] {
      var p := t[..|t| - 1];
      Unreported(m, p, total);
      assert t == p + [t[|t| - 1]];
    }
  }

  lemma ReportsAppend(a: seq<Event>, b: seq<Event>, total: int)
    requires ReportsOutOf(a, total) && ReportsOutOf(b, total)
    ensures ReportsOutOf(a + b, total)
  {
  }

  lemma Snoc(m: Machine, t: seq<Event>, e: Event)
    ensures Summarize(m, t + [e]) == Add(Summarize(m, t), e)
  {
    assert (t + [e])[..|t|] == t;
  }

  /** Summaries compose: the second part runs from the hardware the first left. */
  lemma {:induction false} Concat(m: Machine, a: seq<Event>, b: seq<Event>)
    ensures Summarize(m, a + b) == Join(Summarize(m, a), Summarize(Summarize(m, a).hw, b))
    decreases |b|
  {
    var sa := Summarize(m, a);
    if b == [] {
      assert a + b == a;
    } else {
      var b', e := b[..|b| - 1], b[|b| - 1];
      Concat(m, a, b');
      assert a + b == (a + b') + [e];
      Snoc(m, a + b', e);
      var sb' := Summarize(sa.hw, b');
      assert Summarize(sa.hw, b) == Add(sb', e);
      assert sa.beeps + (sb'.beeps + (if e.BeepProgress? then [e.current] else [])) ==
             (sa.beeps + sb'.beeps) + (if e.BeepProgress? then [e.current] else []);
      assert sa.cues + (sb'.cues + (if e.PlayInstruction? then [e.cue] else [])) ==
             (sa.cues + sb'.cues) + (if e.PlayInstruction? then [e.cue] else []);
    }
  }

  /** The integers lo, lo + 1, ..., hi - 1. */
  function Range(lo: int, hi: int): (r: seq<int>)
    ensures |r| == if hi <= lo then 0 else hi - lo
    decreases hi - lo
  {
    if hi <= lo then [] else Range(lo, hi - 1) + [hi - 1]
  }

  lemma RangeSnoc(lo: int, hi: int)
    requires lo <= hi
    ensures Range(lo, hi) + [hi] == Range(lo, hi + 1)
  {
  }

  /** Range holds the integers from lo upwards, one per position. */
  lemma {:induction false} RangeAt(lo: int, hi: int, i: int)
    requires 0 <= i < |Range(lo, hi)|
    ensures Range(lo, hi)[i] == lo + i
    decreases hi - lo
  {
    if i < |Range(lo, hi - 1)| {
      RangeAt(lo, hi - 1, i);
    }
  }

  /** The abort oracle fires at one of the checks lo .. hi - 1. */
  predicate Hit(abortAt: Option<nat>, lo: int, hi: int) {
    abortAt.Some? && lo <= abortAt.value < hi
  }

  /** Checks in [lo, hi) are those in [lo, mid) and those in [mid, hi). */
  lemma HitSplit(abortAt: Option<nat>, lo: int, mid: int, hi: int)
    requires lo <= mid <= hi
    ensures Hit(abortAt, lo, hi) <==> Hit(abortAt, lo, mid) || Hit(abortAt, mid, hi)
  {
  }

  /** A trace of k plain frames from m: sound and camera untouched. */
  function Plain(m: Machine, k: nat): Summary {
    Summary(m, true, k, [], [], 0, 0)
  }

  // ------------------------------------------------------------ frame loops

  /** One plain frame: the shape drawn when there is one, then a flip with no
      tone call and no log line. */
  function FrameEvents(shape: Option<string>): seq<Event> {
    (if shape.Some? then [DrawShape(shape.value)] else []) + [Flip(NoCall, None)]
  }

  /** A plain frame leaves the hardware as it was and counts one flip. */
  lemma PlainFrame(m: Machine, k: nat, t: seq<Event>, shape: Option<string>)
    requires !m.drawn
    requires m.training <==> shape.Some?
    requires m.measurement ==> m.recording
    requires Summarize(m, t) == Plain(m, k)
    ensures Summarize(m, t + FrameEvents(shape)) == Plain(m, k + 1)
  {
    var flip := Flip(NoCall, None);
    if shape.Some? {
      var draw := DrawShape(shape.value);
      Snoc(m, t, draw);
      Snoc(m, t + [draw], flip);
      assert t + FrameEvents(shape) == t + [draw] + [flip];
    } else {
      Snoc(m, t, flip);
    }
  }

  /** `for _ in range(n): if abort: return; [draw_shape(name);] flip()`:
      the caller appends its own clean-up when the loop is left by an abort.
      The hardware is the same after every frame. */
  method Frames(n: nat, abortAt: Option<nat>, c0: nat, m: Machine, shape: Option<string>)
    returns (aborted: bool, c: nat, t: seq<Event>)
    requires !m.drawn
    requires m.training <==> shape.Some?
    requires m.measurement ==> m.recording
    ensures aborted <==> Hit(abortAt, c0, c0 + n)
    ensures !aborted ==> c == c0 + n
    ensures Summarize(m, t) == Plain(m, if aborted then abortAt.value - c0 else n)
  {
    c, t, aborted := c0, [], false;
    for k := 0 to n
      invariant c == c0 + k && !Hit(abortAt, c0, c)
      invariant Summarize(m, t) == Plain(m, k)
    {
      if abortAt == Some(c) {
        aborted := true;
        return;
      }
      c := c + 1;
      PlainFrame(m, k, t, shape);
      t := t + FrameEvents(shape);
    }
  }

  // ------------------------------------------------------------ frame table

  /** The frame counts computed once by the constructor. */
  datatype FrameTable = FrameTable(shape: nat, blank: nat, beep: nat, silence: nat,
                                   closeEyesWait: nat, startingWait: nat, recordingMargin: nat,
                                   delay: nat)

  /** Every count but the delay is at least one frame, as duration_to_frames guarantees. */
  predicate ValidTable(f: FrameTable) {
    f.shape >= 1 && f.blank >= 1 && f.beep >= 1 && f.silence >= 1 &&
    f.closeEyesWait >= 1 && f.startingWait >= 1 && f.recordingMargin >= 1
  }

  /** The constructor's table: each duration converted at the window's rate,
      the instruction waits 5 s and 2 s, the recording margin 1 s, and the
      delay only when it is positive. */
  function FrameTableFor(t: TimingSettings, rate: real): (f: FrameTable)
    ensures ValidTable(f)
    ensures f.shape == DurationToFrames(t.trainingShapeDuration, rate)
    ensures f.blank == DurationToFrames(t.trainingBlankDuration, rate)
    ensures f.beep == DurationToFrames(t.measurementBeepDuration, rate)
    ensures f.silence == DurationToFrames(t.measurementSilenceDuration, rate)
    ensures f.closeEyesWait == DurationToFrames(5.0, rate)
    ensures f.startingWait == DurationToFrames(2.0, rate)
    ensures f.recordingMargin == DurationToFrames(1.0, rate)
    ensures f.delay == 0 <==> t.trainingToMeasurementDelay <= 0.0
    ensures f.delay > 0 ==> f.delay == DurationToFrames(t.trainingToMeasurementDelay, rate)
  {
    var delay := t.trainingToMeasurementDelay;
    FrameTable(DurationToFrames(t.trainingShapeDuration, rate),
               DurationToFrames(t.trainingBlankDuration, rate),
               DurationToFrames(t.measurementBeepDuration, rate),
               DurationToFrames(t.measurementSilenceDuration, rate),
               DurationToFrames(5.0, rate), DurationToFrames(2.0, rate), DurationToFrames(1.0, rate),
               if delay > 0.0 then DurationToFrames(delay, rate) else 0)
  }

  /** Python's range(n) runs max(n, 0) times. */
  function Times(n: int): nat {
    if n < 0 then 0 else n
  }

  /** The abort checks made by each phase when none fires. */
  function TrainingChecks(f: FrameTable, reps: nat): nat
    requires ValidTable(f)
  {
    Rounds(reps, f.shape + f.blank - 1)
  }

  function DelayChecks(f: FrameTable): nat {
    if f.delay > 0 then f.delay + 1 else 0
  }

  function InstructionChecks(f: FrameTable): nat {
    f.closeEyesWait + f.startingWait + 2
  }

  function MeasurementChecks(f: FrameTable, reps: nat): nat
    requires ValidTable(f)
  {
    Rounds(reps, f.beep + f.silence - 1) + f.recordingMargin
  }

  // ----------------------------------------------------------------- phases

  /** Range(x, x) is empty and Range(x, x + 1) is [x]. */
  lemma RangeOne(x: int)
    ensures Range(x, x) == [] && Range(x, x + 1) == [x]
  {
  }

  /** One training flash i (0-based) with the beep counter at b0: check, draw
      the shape and flip with the training tone and its ON line, report beep
      b0 + 1, sustain the shape for shape - 1 frames, flip with the tone's
      stop and the OFF line, then blank - 1 blank frames. A sustain abort
      stops the tone at once. */
  method TrainingFlash(f: FrameTable, i: int, abortAt: Option<nat>, c0: nat, b0: int, total: int,
                       name: string)
    returns (aborted: bool, c: nat, b: int, t: seq<Event>)
    requires ValidTable(f)
    ensures aborted <==> Hit(abortAt, c0, c0 + f.shape + f.blank - 1)
    ensures !aborted ==> c == c0 + f.shape + f.blank - 1 && b == b0 + 1
    ensures !aborted ==> Summarize(Quiet, t) == Summary(Quiet, true, f.shape + f.blank, [b0 + 1], [], 0, 0)
    ensures b0 <= b <= b0 + 1
    ensures var s := Summarize(Quiet, t);
      s.hw == Quiet && s.ok && s.beeps == Range(b0 + 1, b + 1) && s.cues == [] && s.starts == 0 && s.stops == 0
    ensures ReportsOutOf(t, total)
  {
    RangeOne(b0 + 1);
    if abortAt == Some(c0) {
      return true, c0, b0, [];
    }
    var t1, t2;
    aborted, c, t1 := ShapeShown(f, i, abortAt, c0 + 1, b0, total, name);
    b := b0 + 1;
    if aborted {
      t := t1;
      return;
    }
    var off := Flip(CallStop(TrainingTone), Some(TrainingShapeOff(i + 1)));
    assert Summarize(Quiet, t1 + [off]) == Summary(Quiet, true, f.shape + 1, [b0 + 1], [], 0, 0) by {
      Snoc(Quiet, t1, off);
    }
    aborted, c, t2 := Frames(f.blank - 1, abortAt, c, Quiet, None);
    Unreported(Quiet, t2, total);
    var k := if aborted then abortAt.value - (c0 + f.shape) else f.blank - 1;
    assert Summarize(Quiet, t1 + [off] + t2) == Summary(Quiet, true, f.shape + 1 + k, [b0 + 1], [], 0, 0) by {
      Concat(Quiet, t1 + [off], t2);
    }
    t := t1 + [off] + t2;
  }

  /** The shown part of training flash i: draw the shape, flip with the
      training tone and its ON line, report beep b0 + 1, then sustain it for
      shape - 1 frames, checking from c0; a sustain abort stops the tone. */
  method ShapeShown(f: FrameTable, i: int, abortAt: Option<nat>, c0: nat, b0: int, total: int, name: string)
    returns (aborted: bool, c: nat, t: seq<Event>)
    requires ValidTable(f)
    ensures aborted <==> Hit(abortAt, c0, c0 + f.shape - 1)
    ensures !aborted ==> c == c0 + f.shape - 1
    ensures !aborted ==>
              Summarize(Quiet, t) == Summary(Sounding, true, f.shape, [b0 + 1], [], 0, 0)
    ensures aborted ==> var s := Summarize(Quiet, t);
      s.hw == Quiet && s.ok && s.beeps == [b0 + 1] && s.cues == [] && s.starts == 0 && s.stops == 0
    ensures ReportsOutOf(t, total)
  {
    t := [];
    var on := Flip(CallPlay(TrainingTone), Some(TrainingShapeOn(i + 1)));
    Snoc(Quiet, t, DrawShape(name));
    t := t + [DrawShape(name)];
    Snoc(Quiet, t, on);
    t := t + [on];
    Snoc(Quiet, t, BeepProgress(b0 + 1, total));
    t := t + [BeepProgress(b0 + 1, total)];
    assert Summarize(Quiet, t) == Summary(Sounding, true, 1, [b0 + 1], [], 0, 0);

    var t2;
    aborted, c, t2 := Frames(f.shape - 1, abortAt, c0, Sounding, Some(name));
    Unreported(Sounding, t2, total);
    Concat(Quiet, t, t2);
    t := t + t2;
    if aborted {
      Snoc(Quiet, t, StopTone(TrainingTone));
      t := t + [StopTone(TrainingTone)];
    }
  }

  /** n rounds of k: n * k without the multiplication, for loop invariants. */
  function Rounds(n: nat, k: nat): nat
    decreases n
  {
    if n == 0 then 0 else Rounds(n - 1, k) + k
  }

  lemma {:induction false} RoundsProduct(n: nat, k: nat)
    ensures Rounds(n, k) == n * k
    decreases n
  {
    if n > 0 {
      RoundsProduct(n - 1, k);
      assert n * k == (n - 1) * k + k;
    }
  }

  /** Before the last of n rounds, one more round still fits. */
  lemma {:induction false} RoundsFit(i: nat, n: nat, k: nat)
    requires i < n
    ensures Rounds(i, k) + k <= Rounds(n, k)
    decreases n
  {
    if i < n - 1 {
      RoundsFit(i, n - 1, k);
    }
  }

  /** The training phase: `reps` flashes reporting beeps 1 .. reps; b is the
      beep counter when it ends. */
  method TrainingPhase(f: FrameTable, reps: nat, abortAt: Option<nat>, c0: nat, total: int, name: string)
    returns (aborted: bool, c: nat, b: int, t: seq<Event>)
    requires ValidTable(f)
    ensures aborted <==> Hit(abortAt, c0, c0 + TrainingChecks(f, reps))
    ensures !aborted ==> c == c0 + TrainingChecks(f, reps) && b == reps
    ensures !aborted ==> Summarize(Quiet, t) ==
                           Summary(Quiet, true, Rounds(reps, f.shape + f.blank), Range(1, reps + 1), [], 0, 0)
    ensures 0 <= b <= reps
    ensures var s := Summarize(Quiet, t);
      s.hw == Quiet && s.ok && s.beeps == Range(1, b + 1) && s.cues == [] && s.starts == 0 && s.stops == 0
    ensures ReportsOutOf(t, total)
  {
    var per := f.shape + f.blank - 1;
    c, b, t, aborted := c0, 0, [], false;
    for i := 0 to reps
      invariant c == c0 + Rounds(i, per) && !Hit(abortAt, c0, c) && b == i
      invariant ReportsOutOf(t, total)
      invariant Summarize(Quiet, t) == Summary(Quiet, true, Rounds(i, f.shape + f.blank), Range(1, i + 1), [], 0, 0)
    {
      var ab, c', b', t2 := TrainingFlash(f, i, abortAt, c, b, total, name);
      assert Summarize(Quiet, t + t2) == Join(Summarize(Quiet, t), Summarize(Quiet, t2)) by {
        Concat(Quiet, t, t2);
      }
      ReportsAppend(t, t2, total);
      t := t + t2;
      if ab {
        RoundsFit(i, reps, per);
        RangeAppend(1, i + 1, b' + 1);
        return true, c', b', t;
      }
      RangeSnoc(1, i + 1);
      c, b := c', b';
    }
  }

  /** The optional delay: when there are delay frames, one check and then
      that many blank frames. */
  method DelayPhase(f: FrameTable, abortAt: Option<nat>, c0: nat)
    returns (aborted: bool, c: nat, t: seq<Event>)
    ensures aborted <==> Hit(abortAt, c0, c0 + DelayChecks(f))
    ensures !aborted ==> c == c0 + DelayChecks(f) && Summarize(Quiet, t) == Plain(Quiet, f.delay)
    ensures aborted ==> Summarize(Quiet, t) == Plain(Quiet, Summarize(Quiet, t).flips)
  {
    c, t, aborted := c0, [], false;
    if f.delay > 0 {
      if abortAt == Some(c0) {
        return true, c0, t;
      }
      aborted, c, t := Frames(f.delay, abortAt, c0 + 1, Quiet, None);
    }
  }

  /** Play an instruction, log its line, then wait n frames (each checked). */
  method Announce(cue: Cue, line: LogEvent, n: nat, abortAt: Option<nat>, c0: nat)
    returns (aborted: bool, c: nat, t: seq<Event>)
    ensures aborted <==> Hit(abortAt, c0, c0 + n)
    ensures !aborted ==> c == c0 + n
    ensures Summarize(Quiet, t) == Summary(Quiet, true, if aborted then abortAt.value - c0 else n, [], [cue], 0, 0)
  {
    t := [];
    Snoc(Quiet, t, PlayInstruction(cue));
    t := t + [PlayInstruction(cue)];
    Snoc(Quiet, t, Log(line));
    t := t + [Log(line)];
    var t2;
    aborted, c, t2 := Frames(n, abortAt, c0, Quiet, None);
    Concat(Quiet, t, t2);
    t := t + t2;
  }

  /** Check, "close your eyes" and its wait, "starting" and its wait, and the
      check before measurement; an abort leaves a prefix of the two cues. */
  method InstructionPhase(f: FrameTable, abortAt: Option<nat>, c0: nat)
    returns (aborted: bool, c: nat, t: seq<Event>)
    ensures aborted <==> Hit(abortAt, c0, c0 + InstructionChecks(f))
    ensures !aborted ==> c == c0 + InstructionChecks(f)
    ensures var s := Summarize(Quiet, t);
      && s.hw == Quiet && s.ok && s.beeps == [] && s.starts == 0 && s.stops == 0
      && |s.cues| <= 2 && (|s.cues| >= 1 ==> s.cues[0] == CloseYourEyes) && (|s.cues| == 2 ==> s.cues[1] == Starting)
      && (!aborted ==> s.flips == f.closeEyesWait + f.startingWait && |s.cues| == 2)
  {
    t := [];
    if abortAt == Some(c0) {
      return true, c0, t;
    }
    var t2;
    aborted, c, t := Announce(CloseYourEyes, InstructionCloseEyes, f.closeEyesWait, abortAt, c0 + 1);
    if aborted {
      return;
    }
    aborted, c, t2 := Announce(Starting, InstructionStarting, f.startingWait, abortAt, c);
    Concat(Quiet, t, t2);
    t := t + t2;
    if aborted {
      return;
    }
    if abortAt == Some(c) {
      return true, c, t;
    }
    c := c + 1;
  }

  /** Range(lo, mid) followed by Range(mid, hi) is Range(lo, hi). */
  lemma {:induction false} RangeAppend(lo: int, mid: int, hi: int)
    requires lo <= mid <= hi
    ensures Range(lo, mid) + Range(mid, hi) == Range(lo, hi)
    decreases hi - mid
  {
    if mid < hi {
      RangeAppend(lo, mid, hi - 1);
      assert Range(lo, mid) + (Range(mid, hi - 1) + [hi - 1]) == (Range(lo, mid) + Range(mid, hi - 1)) + [hi - 1];
    } else {
      assert Range(mid, hi) == [];
    }
  }

  /** The onset of measurement beep i (0-based) with the beep counter at b0,
      while recording: check, flip with the measurement tone and its log
      line, report beep b0 + 1, and sustain the tone for beep - 1 frames. An
      abort stops the camera, after stopping a tone that sounds. */
  method BeepOnset(f: FrameTable, i: int, abortAt: Option<nat>, c0: nat, b0: int, total: int)
    returns (aborted: bool, c: nat, b: int, t: seq<Event>)
    requires ValidTable(f)
    ensures aborted <==> Hit(abortAt, c0, c0 + f.beep)
    ensures !aborted ==> c == c0 + f.beep && b == b0 + 1
    ensures !aborted ==> Summarize(Recording, t) == Summary(Beeping, true, f.beep, [b0 + 1], [], 0, 0)
    ensures b0 <= b <= b0 + 1
    ensures aborted ==> var s := Summarize(Recording, t);
      s.hw == Quiet && s.ok && s.beeps == Range(b0 + 1, b + 1) && s.cues == [] && s.starts == 0 && s.stops == 1
    ensures ReportsOutOf(t, total)
  {
    RangeOne(b0 + 1);
    if abortAt == Some(c0) {
      t, b := [StopRecording], b0;
      assert Summarize(Recording, t) == Summary(Quiet, true, 0, [], [], 0, 1) by {
        Snoc(Recording, [], StopRecording);
      }
      return true, c0, b, t;
    }
    var on := Flip(CallPlay(MeasurementTone), Some(MeasurementBeep(i + 1)));
    b := b0 + 1;
    var t1 := [on, BeepProgress(b, total)];
    assert Summarize(Recording, t1) == Summary(Beeping, true, 1, [b0 + 1], [], 0, 0) by {
      Snoc(Recording, [], on);
      assert [on] + [BeepProgress(b, total)] == t1;
      Snoc(Recording, [on], BeepProgress(b, total));
    }

    var t2;
    aborted, c, t2 := Frames(f.beep - 1, abortAt, c0 + 1, Beeping, None);
    ghost var k := if aborted then abortAt.value - (c0 + 1) else f.beep - 1;
    OnsetSustain(t1, t2, b0, k, total);
    if !aborted {
      t := t1 + t2;
      return;
    }
    t := t1 + t2 + [StopTone(MeasurementTone), StopRecording];
  }

  /** A beep's onset followed by k sustained frames, and the same cut short
      by stopping the tone and then the camera. */
  lemma OnsetSustain(t1: seq<Event>, t2: seq<Event>, b0: int, k: nat, total: int)
    requires Summarize(Recording, t1) == Summary(Beeping, true, 1, [b0 + 1], [], 0, 0) && ReportsOutOf(t1, total)
    requires Summarize(Beeping, t2) == Plain(Beeping, k)
    ensures Summarize(Recording, t1 + t2) == Summary(Beeping, true, 1 + k, [b0 + 1], [], 0, 0)
    ensures ReportsOutOf(t1 + t2, total)
    ensures var t := t1 + t2 + [StopTone(MeasurementTone), StopRecording];
      Summarize(Recording, t) == Summary(Quiet, true, 1 + k, [b0 + 1], [], 0, 1) && ReportsOutOf(t, total)
  {
    Unreported(Beeping, t2, total);
    Concat(Recording, t1, t2);
    assert [b0 + 1] + [] == [b0 + 1];
    ReportsAppend(t1, t2, total);
    var t3 := t1 + t2 + [StopTone(MeasurementTone)];
    Snoc(Recording, t1 + t2, StopTone(MeasurementTone));
    Snoc(Recording, t3, StopRecording);
    assert t3 + [StopRecording] == t1 + t2 + [StopTone(MeasurementTone), StopRecording];
    ReportsAppend(t1 + t2, [StopTone(MeasurementTone), StopRecording], total);
  }

  /** One measurement beep: its onset, a flip with the tone's stop, then
      silence - 1 frames; an abort in the silence stops the camera. */
  method MeasurementBeepStep(f: FrameTable, i: int, abortAt: Option<nat>, c0: nat, b0: int, total: int)
    returns (aborted: bool, c: nat, b: int, t: seq<Event>)
    requires ValidTable(f)
    ensures aborted <==> Hit(abortAt, c0, c0 + f.beep + f.silence - 1)
    ensures !aborted ==> c == c0 + f.beep + f.silence - 1 && b == b0 + 1
    ensures !aborted ==> Summarize(Recording, t) == Summary(Recording, true, f.beep + f.silence, [b0 + 1], [], 0, 0)
    ensures b0 <= b <= b0 + 1
    ensures aborted ==> var s := Summarize(Recording, t);
      s.hw == Quiet && s.ok && s.beeps == Range(b0 + 1, b + 1) && s.cues == [] && s.starts == 0 && s.stops == 1
    ensures ReportsOutOf(t, total)
  {
    aborted, c, b, t := BeepOnset(f, i, abortAt, c0, b0, total);
    if aborted {
      return;
    }
    RangeOne(b0 + 1);
    Snoc(Recording, t, Flip(CallStop(MeasurementTone), None));
    t := t + [Flip(CallStop(MeasurementTone), None)];
    assert Summarize(Recording, t) == Summary(Recording, true, f.beep + 1, [b0 + 1], [], 0, 0);

    var t2;
    aborted, c, t2 := Frames(f.silence - 1, abortAt, c, Recording, None);
    Unreported(Recording, t2, total);
    Concat(Recording, t, t2);
    t := t + t2;
    if aborted {
      Snoc(Recording, t, StopRecording);
      t := t + [StopRecording];
    }
  }

  /** `reps` measurement beeps while the camera records, reporting beeps
      b0 + 1 .. b0 + reps; an abort leaves the camera stopped. */
  method MeasurementBeeps(f: FrameTable, reps: nat, abortAt: Option<nat>, c0: nat, b0: int, total: int)
    returns (aborted: bool, c: nat, b: int, t: seq<Event>)
    requires ValidTable(f)
    ensures aborted <==> Hit(abortAt, c0, c0 + Rounds(reps, f.beep + f.silence - 1))
    ensures !aborted ==> c == c0 + Rounds(reps, f.beep + f.silence - 1) && b == b0 + reps
    ensures !aborted ==> Summarize(Recording, t) ==
                           Summary(Recording, true, Rounds(reps, f.beep + f.silence), Range(b0 + 1, b0 + reps + 1), [], 0, 0)
    ensures b0 <= b <= b0 + reps
    ensures aborted ==> var s := Summarize(Recording, t);
      s.hw == Quiet && s.ok && s.beeps == Range(b0 + 1, b + 1) && s.cues == [] && s.starts == 0 && s.stops == 1
    ensures ReportsOutOf(t, total)
  {
    var per := f.beep + f.silence - 1;
    c, b, t, aborted := c0, b0, [], false;
    for i := 0 to reps
      invariant c == c0 + Rounds(i, per) && !Hit(abortAt, c0, c) && b == b0 + i
      invariant ReportsOutOf(t, total)
      invariant Summarize(Recording, t) ==
                  Summary(Recording, true, Rounds(i, f.beep + f.silence), Range(b0 + 1, b + 1), [], 0, 0)
    {
      var ab, c', b', t2 := MeasurementBeepStep(f, i, abortAt, c, b, total);
      assert Summarize(Recording, t + t2) == Join(Summarize(Recording, t), Summarize(Recording, t2)) by {
        Concat(Recording, t, t2);
      }
      ReportsAppend(t, t2, total);
      t := t + t2;
      if ab {
        RoundsFit(i, reps, per);
        RangeAppend(b0 + 1, b + 1, b' + 1);
        return true, c', b', t;
      }
      RangeSnoc(b0 + 1, b + 1);
      c, b := c', b';
    }
  }

  /** The recording margin, then stop the camera and log the frame count it
      reports; an abort in the margin stops the camera. */
  method MarginAndStop(f: FrameTable, abortAt: Option<nat>, c0: nat, framesRecorded: int)
    returns (aborted: bool, c: nat, t: seq<Event>)
    ensures aborted <==> Hit(abortAt, c0, c0 + f.recordingMargin)
    ensures !aborted ==> c == c0 + f.recordingMargin
    ensures !aborted ==> |t| >= 2 && t[|t| - 2] == StopRecording && t[|t| - 1] == Log(RecordingStop(framesRecorded))
    ensures var s := Summarize(Recording, t);
      && s.hw == Quiet && s.ok && s.beeps == [] && s.cues == [] && s.starts == 0 && s.stops == 1
      && (!aborted ==> s.flips == f.recordingMargin)
  {
    aborted, c, t := Frames(f.recordingMargin, abortAt, c0, Recording, None);
    Snoc(Recording, t, StopRecording);
    t := t + [StopRecording];
    if aborted {
      return;
    }
    Snoc(Recording, t, Log(RecordingStop(framesRecorded)));
    t := t + [Log(RecordingStop(framesRecorded))];
  }

  /** The completed beeps followed by the margin and the camera's stop. */
  lemma MarginAfter(f: FrameTable, reps: nat, b0: int, aborted: bool, framesRecorded: int, total: int,
                    t1: seq<Event>, t2: seq<Event>)
    requires Summarize(Recording, t1) ==
               Summary(Recording, true, Rounds(reps, f.beep + f.silence), Range(b0 + 1, b0 + reps + 1), [], 0, 0)
    requires ReportsOutOf(t1, total)
    requires !aborted ==> |t2| >= 2 && t2[|t2| - 2] == StopRecording && t2[|t2| - 1] == Log(RecordingStop(framesRecorded))
    requires var s := Summarize(Recording, t2);
      && s.hw == Quiet && s.ok && s.beeps == [] && s.cues == [] && s.starts == 0 && s.stops == 1
      && (!aborted ==> s.flips == f.recordingMargin)
    ensures !aborted ==> var t := t1 + t2;
      |t| >= 2 && t[|t| - 2] == StopRecording && t[|t| - 1] == Log(RecordingStop(framesRecorded))
    ensures var s := Summarize(Recording, t1 + t2);
      && s.hw == Quiet && s.ok && s.beeps == Range(b0 + 1, b0 + reps + 1) && s.cues == [] && s.starts == 0 && s.stops == 1
      && (!aborted ==> s.flips == Rounds(reps, f.beep + f.silence) + f.recordingMargin)
    ensures ReportsOutOf(t1 + t2, total)
  {
    Unreported(Recording, t2, total);
    ReportsAppend(t1, t2, total);
    Concat(Recording, t1, t2);
    assert Summarize(Recording, t1).beeps + [] == Summarize(Recording, t1).beeps;
  }

  /** The beeps and the recording margin, from a recording camera: every way
      out stops the camera once. */
  method BeepsAndMargin(f: FrameTable, reps: nat, abortAt: Option<nat>, c0: nat, b0: int, total: int,
                        framesRecorded: int)
    returns (aborted: bool, c: nat, b: int, t: seq<Event>)
    requires ValidTable(f)
    ensures aborted <==> Hit(abortAt, c0, c0 + MeasurementChecks(f, reps))
    ensures !aborted ==> c == c0 + MeasurementChecks(f, reps) && b == b0 + reps
    ensures b0 <= b <= b0 + reps
    ensures !aborted ==> |t| >= 2 && t[|t| - 2] == StopRecording && t[|t| - 1] == Log(RecordingStop(framesRecorded))
    ensures var s := Summarize(Recording, t);
      && s.hw == Quiet && s.ok && s.beeps == Range(b0 + 1, b + 1) && s.cues == [] && s.starts == 0 && s.stops == 1
      && (!aborted ==> s.flips == Rounds(reps, f.beep + f.silence) + f.recordingMargin)
    ensures ReportsOutOf(t, total)
  {
    ghost var m := Rounds(reps, f.beep + f.silence - 1);
    assert MeasurementChecks(f, reps) == m + f.recordingMargin;
    HitSplit(abortAt, c0, c0 + m, c0 + m + f.recordingMargin);
    var t1;
    aborted, c, b, t1 := MeasurementBeeps(f, reps, abortAt, c0, b0, total);
    if aborted {
      return aborted, c, b, t1;
    }
    var t2;
    var c1 := c;
    aborted, c, t2 := MarginAndStop(f, abortAt, c1, framesRecorded);
    MarginAfter(f, reps, b0, aborted, framesRecorded, total, t1, t2);
    t := t1 + t2;
  }

  /** The measurement phase with the beep counter at b0: start the camera at
      `fps` and log it, the beeps, the recording margin, then stop the camera
      and log the frame count it reports (`framesRecorded`). Every abort
      stops the camera. */
  method MeasurementPhase(f: FrameTable, reps: nat, abortAt: Option<nat>, c0: nat, b0: int, total: int,
                          fps: real, framesRecorded: int)
    returns (aborted: bool, c: nat, b: int, t: seq<Event>)
    requires ValidTable(f)
    ensures aborted <==> Hit(abortAt, c0, c0 + MeasurementChecks(f, reps))
    ensures !aborted ==> c == c0 + MeasurementChecks(f, reps) && b == b0 + reps
    ensures b0 <= b <= b0 + reps
    ensures |t| >= 2 && t[0] == StartRecording(fps) && t[1] == Log(RecordingStart)
    ensures !aborted ==> t[|t| - 2] == StopRecording && t[|t| - 1] == Log(RecordingStop(framesRecorded))
    ensures var s := Summarize(Quiet, t);
      && s.hw == Quiet && s.ok && s.beeps == Range(b0 + 1, b + 1) && s.cues == [] && s.starts == 1 && s.stops == 1
      && (!aborted ==> s.flips == Rounds(reps, f.beep + f.silence) + f.recordingMargin)
    ensures ReportsOutOf(t, total)
  {
    var t2;
    aborted, c, b, t2 := BeepsAndMargin(f, reps, abortAt, c0, b0, total, framesRecorded);
    StartThen(fps, t2);
    ReportsAppend([StartRecording(fps), Log(RecordingStart)], t2, total);
    t := [StartRecording(fps), Log(RecordingStart)] + t2;
  }

  /** Starting the camera and logging it, then a trace from a recording camera. */
  lemma StartThen(fps: real, t2: seq<Event>)
    ensures var s2 := Summarize(Recording, t2);
      Summarize(Quiet, [StartRecording(fps), Log(RecordingStart)] + t2) ==
      Summary(s2.hw, s2.ok, s2.flips, s2.beeps, s2.cues, s2.starts + 1, s2.stops)
  {
    var pre := [StartRecording(fps), Log(RecordingStart)];
    Snoc(Quiet, [], StartRecording(fps));
    assert [StartRecording(fps)] == [] + [StartRecording(fps)];
    Snoc(Quiet, [StartRecording(fps)], Log(RecordingStart));
    assert pre == [StartRecording(fps)] + [Log(RecordingStart)];
    assert Summarize(Quiet, pre) == Summary(Recording, true, 0, [], [], 1, 0);
    Concat(Quiet, pre, t2);
    var s2 := Summarize(Recording, t2);
    assert [] + s2.beeps == s2.beeps && [] + s2.cues == s2.cues;
  }

  // ------------------------------------------------------------ whole trial

  /** The abort checks made before the camera starts, and in the whole trial. */
  function PreRecordingChecks(f: FrameTable, trainingReps: nat): nat
    requires ValidTable(f)
  {
    TrainingChecks(f, trainingReps) + DelayChecks(f) + InstructionChecks(f)
  }

  function TotalChecks(f: FrameTable, trainingReps: nat, measurementReps: nat): nat
    requires ValidTable(f)
  {
    PreRecordingChecks(f, trainingReps) + MeasurementChecks(f, measurementReps)
  }

  /** The optional delay and the instructions between training and measurement. */
  method Interlude(f: FrameTable, abortAt: Option<nat>, c0: nat)
    returns (aborted: bool, c: nat, t: seq<Event>)
    ensures aborted <==> Hit(abortAt, c0, c0 + DelayChecks(f) + InstructionChecks(f))
    ensures !aborted ==> c == c0 + DelayChecks(f) + InstructionChecks(f)
    ensures var s := Summarize(Quiet, t);
      && s.hw == Quiet && s.ok && s.beeps == [] && s.starts == 0 && s.stops == 0
      && |s.cues| <= 2 && (|s.cues| >= 1 ==> s.cues[0] == CloseYourEyes) && (|s.cues| == 2 ==> s.cues[1] == Starting)
      && (!aborted ==> s.flips == f.delay + f.closeEyesWait + f.startingWait && |s.cues| == 2)
  {
    var t1, t2;
    aborted, c, t1 := DelayPhase(f, abortAt, c0);
    if aborted {
      t := t1;
      return;
    }
    aborted, c, t2 := InstructionPhase(f, abortAt, c);
    assert Summarize(Quiet, t1 + t2) == Join(Summarize(Quiet, t1), Summarize(Quiet, t2)) by {
      Concat(Quiet, t1, t2);
    }
    t := t1 + t2;
  }

  /** Everything before the camera starts: the TRIAL_START line, training,
      the optional delay and the instructions. */
  method PreRecording(f: FrameTable, reps: nat, abortAt: Option<nat>, total: int, name: string)
    returns (aborted: bool, c: nat, b: int, t: seq<Event>)
    requires ValidTable(f)
    ensures aborted <==> Hit(abortAt, 0, PreRecordingChecks(f, reps))
    ensures !aborted ==> c == PreRecordingChecks(f, reps) && b == reps
    ensures 0 <= b <= reps
    ensures |t| >= 1 && t[0] == Log(TrialStart(name))
    ensures var s := Summarize(Quiet, t);
      && s.hw == Quiet && s.ok && s.beeps == Range(1, b + 1) && s.starts == 0 && s.stops == 0
      && |s.cues| <= 2 && (|s.cues| >= 1 ==> s.cues[0] == CloseYourEyes) && (|s.cues| == 2 ==> s.cues[1] == Starting)
      && (!aborted ==> s.flips == Rounds(reps, f.shape + f.blank) + f.delay + f.closeEyesWait + f.startingWait
                       && |s.cues| == 2)
    ensures ReportsOutOf(t, total)
  {
    var head := [Log(TrialStart(name))];
    var t1, t2;
    aborted, c, b, t1 := TrainingPhase(f, reps, abortAt, 0, total, name);
    HitSplit(abortAt, 0, TrainingChecks(f, reps), PreRecordingChecks(f, reps));
    HeadFirst(name, t1, total);
    if aborted {
      t := head + t1;
      return;
    }
    aborted, c, t2 := Interlude(f, abortAt, c);
    QuietAfter(head + t1, t2, total);
    t := head + t1 + t2;
  }

  /** The TRIAL_START line changes no part of a trace's summary. */
  lemma HeadFirst(name: string, t1: seq<Event>, total: int)
    requires ReportsOutOf(t1, total)
    ensures Summarize(Quiet, [Log(TrialStart(name))] + t1) == Summarize(Quiet, t1)
    ensures ReportsOutOf([Log(TrialStart(name))] + t1, total)
  {
    var head := [Log(TrialStart(name))];
    Snoc(Quiet, [], Log(TrialStart(name)));
    assert [] + head == head;
    Concat(Quiet, head, t1);
    var s1 := Summarize(Quiet, t1);
    assert [] + s1.beeps == s1.beeps && [] + s1.cues == s1.cues;
    ReportsAppend(head, t1, total);
  }

  /** A trace without beep reports, run after one that left the hardware
      quiet, adds no beep counter. */
  lemma QuietAfter(a: seq<Event>, t2: seq<Event>, total: int)
    requires ReportsOutOf(a, total) && Summarize(Quiet, a).hw == Quiet
    requires Summarize(Quiet, t2).beeps == []
    ensures Summarize(Quiet, a + t2) == Join(Summarize(Quiet, a), Summarize(Quiet, t2))
    ensures Summarize(Quiet, a + t2).beeps == Summarize(Quiet, a).beeps
    ensures ReportsOutOf(a + t2, total)
  {
    Concat(Quiet, a, t2);
    assert Summarize(Quiet, a).beeps + [] == Summarize(Quiet, a).beeps;
    Unreported(Quiet, t2, total);
    ReportsAppend(a, t2, total);
  }

  /** The post-measurement instruction: the recording played, its log line,
      and the wait after it in seconds. */
  datatype PostInstruction = PostInstruction(cue: Cue, line: LogEvent, wait: real)

  /** The instruction that follows a measurement: open your eyes while shapes
      remain in the turn, otherwise the session's or the turn's closing cue. */
  function PostCue(isLastShape: bool, isLastQueueItem: bool): Cue {
    if !isLastShape then OpenYourEyes
    else if isLastQueueItem then ExperimentCompleted
    else NextParticipantPlease
  }

  /** The three-way choice after measurement: more shapes in this turn, the
      very last item of the session (waiting for the whole recording, whose
      length is `completedDuration`, plus a second), or the end of a turn. */
  function PostFor(isLastShape: bool, isLastQueueItem: bool, completedDuration: real): (p: PostInstruction)
    ensures p.cue == PostCue(isLastShape, isLastQueueItem)
    ensures p.cue == OpenYourEyes <==> !isLastShape
    ensures p.cue == ExperimentCompleted <==> isLastShape && isLastQueueItem
    ensures p.cue == NextParticipantPlease <==> isLastShape && !isLastQueueItem
    ensures p.cue == OpenYourEyes ==> p.line == InstructionOpenEyes
    ensures p.cue == ExperimentCompleted ==> p.line == InstructionCompleted
    ensures p.cue == NextParticipantPlease ==> p.line == InstructionNextParticipant
    ensures p.wait >= 5.0
    ensures p.cue != ExperimentCompleted ==> p.wait == 5.0
    ensures p.cue == ExperimentCompleted ==>
              p.wait >= completedDuration + 1.0 && (p.wait == 5.0 || p.wait == completedDuration + 1.0)
  {
    if !isLastShape then PostInstruction(OpenYourEyes, InstructionOpenEyes, 5.0)
    else if isLastQueueItem then
      PostInstruction(ExperimentCompleted, InstructionCompleted,
                      if 5.0 >= completedDuration + 1.0 then 5.0 else completedDuration + 1.0)
    else PostInstruction(NextParticipantPlease, InstructionNextParticipant, 5.0)
  }

  /** After a completed measurement: play the chosen instruction, log it,
      wait, and log TRIAL_END with the frame count. */
  method PostMeasurement(post: PostInstruction, framesRecorded: int) returns (t: seq<Event>)
    ensures t == [PlayInstruction(post.cue), Log(post.line), Sleep(post.wait), Log(TrialEnd(framesRecorded))]
    ensures Summarize(Quiet, t) == Summary(Quiet, true, 0, [], [post.cue], 0, 0)
  {
    t := [];
    Snoc(Quiet, t, PlayInstruction(post.cue));
    t := t + [PlayInstruction(post.cue)];
    Snoc(Quiet, t, Log(post.line));
    t := t + [Log(post.line)];
    Snoc(Quiet, t, Sleep(post.wait));
    t := t + [Sleep(post.wait)];
    Snoc(Quiet, t, Log(TrialEnd(framesRecorded)));
    t := t + [Log(TrialEnd(framesRecorded))];
  }

  /** One trial after the abort flag is cleared: counting abort checks from
      0, the pre-recording part, the measurement, then the post-measurement
      instruction, its wait and the TRIAL_END line with the frame count.
      `total` is the denominator every beep report carries, the sum of the
      two configured repetition counts as they stand. */
  method Trial(f: FrameTable, trainingReps: nat, measurementReps: nat, total: int, abortAt: Option<nat>,
               name: string, fps: real, framesRecorded: int, post: PostInstruction)
    returns (ok: bool, b: int, t: seq<Event>)
    requires ValidTable(f)
    ensures ok <==> !Hit(abortAt, 0, TotalChecks(f, trainingReps, measurementReps))
    ensures 0 <= b <= trainingReps + measurementReps
    ensures ok ==> b == trainingReps + measurementReps
    ensures |t| >= 1 && t[0] == Log(TrialStart(name))
    ensures ok ==> |t| >= 6 && t[|t| - 6..] == Closing(post, framesRecorded)
    ensures var s := Summarize(Quiet, t);
      && s.hw == Quiet && s.ok && s.beeps == Range(1, b + 1)
      && s.starts == s.stops && s.starts <= 1
      && (s.starts == 1 <==> !Hit(abortAt, 0, PreRecordingChecks(f, trainingReps)))
      && |s.cues| <= 3 && (|s.cues| >= 1 ==> s.cues[0] == CloseYourEyes) && (|s.cues| >= 2 ==> s.cues[1] == Starting)
      && (!ok ==> |s.cues| <= 2)
      && (ok ==> |s.cues| == 3 && s.cues[2] == post.cue)
      && (ok ==> s.flips == Rounds(trainingReps, f.shape + f.blank) + f.delay + f.closeEyesWait + f.startingWait
                            + Rounds(measurementReps, f.beep + f.silence) + f.recordingMargin)
    ensures ReportsOutOf(t, total)
  {
    var aborted, c, t1, t2;
    aborted, c, b, t1 := PreRecording(f, trainingReps, abortAt, total, name);
    if aborted {
      return false, b, t1;
    }
    ghost var s0 := Summarize(Quiet, t1);
    ghost var b0 := b;
    ok, b, t2 := MeasureAndPost(f, measurementReps, abortAt, c, b, total,
                                fps, framesRecorded, post);
    ghost var s1 := Summarize(Quiet, t2);
    Concat(Quiet, t1, t2);
    ReportsAppend(t1, t2, total);
    JoinPhases(f, trainingReps, measurementReps, b0, b, ok, post, s0, s1);
    if ok {
      assert (t1 + t2)[|t1 + t2| - 6..] == Closing(post, framesRecorded) by {
        SuffixOfAppend(t1, t2, 6);
      }
    }
    t := t1 + t2;
  }

  /** The summary of a trial is that of its pre-recording part, completed,
      followed by that of its measurement part. */
  lemma JoinPhases(f: FrameTable, trainingReps: nat, measurementReps: nat, b0: int, b: int, ok: bool,
                   post: PostInstruction, s0: Summary, s1: Summary)
    requires ValidTable(f) && b0 == trainingReps
    requires s0.hw == Quiet && s0.ok && s0.beeps == Range(1, b0 + 1) && s0.starts == 0 && s0.stops == 0
    requires |s0.cues| == 2 && s0.cues[0] == CloseYourEyes && s0.cues[1] == Starting
    requires s0.flips == Rounds(trainingReps, f.shape + f.blank) + f.delay + f.closeEyesWait + f.startingWait
    requires b0 <= b <= b0 + measurementReps && (ok ==> b == b0 + measurementReps)
    requires s1.hw == Quiet && s1.ok && s1.beeps == Range(b0 + 1, b + 1) && s1.starts == 1 && s1.stops == 1
    requires s1.cues == (if ok then [post.cue] else [])
    requires ok ==> s1.flips == Rounds(measurementReps, f.beep + f.silence) + f.recordingMargin
    ensures var s := Join(s0, s1);
      && s.hw == Quiet && s.ok && s.beeps == Range(1, b + 1)
      && s.starts == s.stops && s.starts == 1
      && |s.cues| <= 3 && s.cues[0] == CloseYourEyes && s.cues[1] == Starting
      && (!ok ==> |s.cues| <= 2)
      && (ok ==> |s.cues| == 3 && s.cues[2] == post.cue)
      && (ok ==> s.flips == Rounds(trainingReps, f.shape + f.blank) + f.delay + f.closeEyesWait + f.startingWait
                            + Rounds(measurementReps, f.beep + f.silence) + f.recordingMargin)
  {
    RangeAppend(1, b0 + 1, b + 1);
  }

  /** The last six events of a successful trial: the camera stops and its
      frame count is logged, then the post-measurement instruction, its log
      line, its wait, and TRIAL_END. */
  function Closing(post: PostInstruction, framesRecorded: int): (r: seq<Event>)
    ensures |r| == 6
  {
    [StopRecording, Log(RecordingStop(framesRecorded)),
     PlayInstruction(post.cue), Log(post.line), Sleep(post.wait), Log(TrialEnd(framesRecorded))]
  }

  lemma SuffixOfAppend(a: seq<Event>, b: seq<Event>, n: nat)
    requires n <= |b|
    ensures (a + b)[|a + b| - n..] == b[|b| - n..]
  {
  }

  /** The measurement phase and, when it was not aborted, the post-measurement
      instruction. */
  method MeasureAndPost(f: FrameTable, reps: nat, abortAt: Option<nat>, c0: nat, b0: int, total: int,
                        fps: real, framesRecorded: int, post: PostInstruction)
    returns (ok: bool, b: int, t: seq<Event>)
    requires ValidTable(f)
    ensures ok <==> !Hit(abortAt, c0, c0 + MeasurementChecks(f, reps))
    ensures b0 <= b <= b0 + reps
    ensures ok ==> b == b0 + reps
    ensures ok ==> |t| >= 6 && t[|t| - 6..] == Closing(post, framesRecorded)
    ensures var s := Summarize(Quiet, t);
      && s.hw == Quiet && s.ok && s.beeps == Range(b0 + 1, b + 1) && s.starts == 1 && s.stops == 1
      && s.cues == (if ok then [post.cue] else [])
      && (ok ==> s.flips == Rounds(reps, f.beep + f.silence) + f.recordingMargin)
    ensures ReportsOutOf(t, total)
  {
    var aborted, c;
    aborted, c, b, t := MeasurementPhase(f, reps, abortAt, c0, b0, total, fps, framesRecorded);
    if aborted {
      return false, b, t;
    }
    var t2 := PostMeasurement(post, framesRecorded);
    Unreported(Quiet, t2, total);
    ReportsAppend(t, t2, total);
    Concat(Quiet, t, t2);
    assert [] + [post.cue] == [post.cue];
    assert (t + t2)[|t + t2| - 6..] == Closing(post, framesRecorded) by {
      assert (t + t2)[|t + t2| - 6..] == t[|t| - 2..] + t2;
    }
    t := t + t2;
    ok := true;
  }

  // ------------------------------------------------------------ shape names

  /** shape_name as line 125 computes it: it reads `shape_name` in its own
      right-hand side, so for a Shape enum (which has `.value`) the read of
      the unassigned local raises; a plain name gives str(shape). None
      stands for the exception. */
  function ShapeNameAsWritten(s: Stimulus): (r: Option<string>)
    ensures r.None? <==> s.ShapeEnum?
    ensures r.Some? ==> r.value == s.name
  {
    if s.ShapeEnum? then None else Some(s.name)
  }

  /** The name as the engine derives it (`shape.value` for an enum, the string
      otherwise): the name of the trial's stimulus. */
  function TrialShapeName(s: Stimulus): (r: string)
    ensures ShapeNameAsWritten(s).Some? ==> r == ShapeNameAsWritten(s).value
  {
    s.name
  }

  /** The two readings agree on raw names and differ exactly on enums: every
      Shape stimulus makes the line as written raise. */
  lemma ShapeNameAsWrittenRaisesOnEnums(n: string)
    ensures ShapeNameAsWritten(ShapeEnum(n)).None?
    ensures TrialShapeName(ShapeEnum(n)) == n
    ensures ShapeNameAsWritten(RawName(n)) == Some(TrialShapeName(RawName(n)))
  {
  }

  // ------------------------------------------- frame counts and durations

  /** A duration of k frames is k frame durations. */
  lemma WholeFrames(x: real, rate: real, k: int)
    requires rate > 0.0 && x * rate == k as real
    ensures x == k as real * FrameDuration(rate)
  {
    var d := FrameDuration(rate);
    assert d * rate == 1.0;
    calc {
      x;
      x * 1.0;
      { assert 1.0 == d * rate; }
      x * (d * rate);
      (x * rate) * d;
      k as real * d;
    }
  }

  /** n rounds of k1 + k2 frames last n rounds of the two durations. */
  lemma RoundsDuration(n: int, k1: int, k2: int, d: real, x1: real, x2: real)
    requires x1 == k1 as real * d && x2 == k2 as real * d
    ensures (n * (k1 + k2)) as real * d == n as real * (x1 + x2)
  {
    assert (n * (k1 + k2)) as real == n as real * (k1 + k2) as real;
    assert (k1 + k2) as real * d == x1 + x2;
  }

  /** When the shape and blank durations are whole numbers of frames, the
      training flips last exactly the configured training phase duration. */
  lemma TrainingFlipsMatchDuration(t: TimingSettings, rate: real, k1: int, k2: int)
    requires rate > 0.0 && t.trainingRepetitions >= 0 && k1 >= 1 && k2 >= 1
    requires t.trainingShapeDuration * rate == k1 as real && t.trainingBlankDuration * rate == k2 as real
    ensures (Times(t.trainingRepetitions) *
             (DurationToFrames(t.trainingShapeDuration, rate) + DurationToFrames(t.trainingBlankDuration, rate))) as real
            * FrameDuration(rate) == t.TrainingPhaseDuration()
  {
    DurationToFramesExact(t.trainingShapeDuration, rate, k1);
    DurationToFramesExact(t.trainingBlankDuration, rate, k2);
    WholeFrames(t.trainingShapeDuration, rate, k1);
    WholeFrames(t.trainingBlankDuration, rate, k2);
    RoundsDuration(t.trainingRepetitions, k1, k2, FrameDuration(rate),
                   t.trainingShapeDuration, t.trainingBlankDuration);
  }

  /** Likewise for the measurement beeps and silences. */
  lemma MeasurementFlipsMatchDuration(t: TimingSettings, rate: real, k1: int, k2: int)
    requires rate > 0.0 && t.measurementRepetitions >= 0 && k1 >= 1 && k2 >= 1
    requires t.measurementBeepDuration * rate == k1 as real && t.measurementSilenceDuration * rate == k2 as real
    ensures (Times(t.measurementRepetitions) *
             (DurationToFrames(t.measurementBeepDuration, rate) + DurationToFrames(t.measurementSilenceDuration, rate))) as real
            * FrameDuration(rate) == t.MeasurementPhaseDuration()
  {
    DurationToFramesExact(t.measurementBeepDuration, rate, k1);
    DurationToFramesExact(t.measurementSilenceDuration, rate, k2);
    WholeFrames(t.measurementBeepDuration, rate, k1);
    WholeFrames(t.measurementSilenceDuration, rate, k2);
    RoundsDuration(t.measurementRepetitions, k1, k2, FrameDuration(rate),
                   t.measurementBeepDuration, t.measurementSilenceDuration);
  }

  // ------------------------------------------------------------ the object

  /** The protocol object: the timing, the window's frame rate, the frame
      table computed once, and the abort flag another thread may set. */
  class TrialProtocol {
    const timing: TimingSettings
    const rate: real
    const frames: FrameTable
    var abort: bool

    /** The table is the one for this timing and rate. */
    ghost predicate Valid() {
      frames == FrameTableFor(timing, rate)
    }

    /** __init__: the frame table for this timing and rate, no abort. */
    constructor (timing: TimingSettings, rate: real)
      ensures this.timing == timing && this.rate == rate
      ensures Valid() && frames == FrameTableFor(timing, rate) && !abort
    {
      this.timing := timing;
      this.rate := rate;
      var delay := timing.trainingToMeasurementDelay;
      frames := FrameTable(DurationToFrames(timing.trainingShapeDuration, rate),
                           DurationToFrames(timing.trainingBlankDuration, rate),
                           DurationToFrames(timing.measurementBeepDuration, rate),
                           DurationToFrames(timing.measurementSilenceDuration, rate),
                           DurationToFrames(5.0, rate), DurationToFrames(2.0, rate),
                           DurationToFrames(1.0, rate),
                           if delay > 0.0 then DurationToFrames(delay, rate) else 0);
      abort := false;
    }

    method RequestAbort()
      modifies this
      ensures abort
    {
      abort := true;
    }

    /** range(training_repetitions) and range(measurement_repetitions). */
    function TrainingReps(): nat {
      Times(timing.trainingRepetitions)
    }

    function MeasurementReps(): nat {
      Times(timing.measurementRepetitions)
    }

    /** The abort checks a trial makes when none of them fires. */
    function AbortChecks(): nat
      requires Valid()
    {
      TotalChecks(frames, TrainingReps(), MeasurementReps())
    }

    /** run(): clear the flag, then one trial of `stim`. abortAt names the
        first abort check (from 0) at which the flag is seen set; cameraFps
        is the camera's configured frame rate when it has settings; the
        camera's frame count and the completed-instruction length are
        inputs. Returns True exactly when no check saw the flag; b is the
        beep counter at the end. */
    method Run(stim: Stimulus, isLastShape: bool, isLastQueueItem: bool, abortAt: Option<nat>,
               cameraFps: Option<real>, framesRecorded: int, completedDuration: real)
      returns (ok: bool, t: seq<Event>, ghost b: int)
      requires Valid()
      modifies this
      ensures abort == !ok
      ensures ok <==> !Hit(abortAt, 0, AbortChecks())
      ensures 0 <= b <= TrainingReps() + MeasurementReps() && (ok ==> b == TrainingReps() + MeasurementReps())
      ensures |t| >= 1 && t[0] == Log(TrialStart(TrialShapeName(stim)))
      ensures ok ==> |t| >= 6 && t[|t| - 6..] == Closing(PostFor(isLastShape, isLastQueueItem, completedDuration),
                                                      framesRecorded)
      ensures Summarize(Quiet, t).hw == Quiet && Summarize(Quiet, t).ok
      ensures Summarize(Quiet, t).beeps == Range(1, b + 1)
      ensures Summarize(Quiet, t).starts == Summarize(Quiet, t).stops <= 1
      ensures Summarize(Quiet, t).starts == 1 <==> !Hit(abortAt, 0, PreRecordingChecks(frames, TrainingReps()))
      ensures ok ==> Summarize(Quiet, t).flips ==
                       TrainingReps() * (frames.shape + frames.blank) + frames.delay + frames.closeEyesWait
                       + frames.startingWait + MeasurementReps() * (frames.beep + frames.silence)
                       + frames.recordingMargin
      ensures var cues := Summarize(Quiet, t).cues;
        && |cues| <= 3 && (|cues| >= 1 ==> cues[0] == CloseYourEyes) && (|cues| >= 2 ==> cues[1] == Starting)
        && (ok <==> |cues| == 3)
        && (ok ==> cues[2] == PostFor(isLastShape, isLastQueueItem, completedDuration).cue)
      ensures ReportsOutOf(t, timing.trainingRepetitions + timing.measurementRepetitions)
    {
      abort := false;
      var post := PostFor(isLastShape, isLastQueueItem, completedDuration);
      var fps := cameraFps.GetOr(500.0);
      ok, b, t := Trial(frames, TrainingReps(), MeasurementReps(),
                        timing.trainingRepetitions + timing.measurementRepetitions,
                        abortAt, TrialShapeName(stim), fps, framesRecorded, post);
      abort := !ok;
      RoundsProduct(TrainingReps(), frames.shape + frames.blank);
      RoundsProduct(MeasurementReps(), frames.beep + frames.silence);
    }
  }
}
