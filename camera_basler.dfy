/** The Basler camera backend (hardware/camera_basler.py): the ROI offset
    arithmetic of _apply_settings and the recording flags. The recording
    thread is abstracted into the steps it takes on the shared fields:
    a grab attempt, and the loop's exit. */
module CameraModel {
  import opened SettingsModel

  /** A manual offset rounded down to an even value: (o // 2) * 2. */
  function ManualOffset(o: int): (off: int)
    requires o >= 0
    ensures off % 2 == 0 && 0 <= off <= o && o - 1 <= off
  {
    (o / 2) * 2
  }

  /** The auto-centring offset ((max - size) // 2 // 2) * 2. Dafny's `/` by a
      positive divisor floors like Python's `//`, also when max < size. */
  function CenteredOffset(size: int, maxSize: int): (off: int)
    ensures off % 2 == 0
    ensures size <= maxSize ==>
              0 <= off && off + size <= maxSize && 0 <= maxSize - size - 2 * off < 4
  {
    ((maxSize - size) / 2 / 2) * 2
  }

  /** The offset written to the camera for one axis: a non-negative request is
      manual, a negative one asks for centring on the sensor. */
  function RoiOffset(requested: int, size: int, maxSize: int): (off: int)
    ensures requested >= 0 ==> off == ManualOffset(requested)
    ensures requested < 0 ==> off == CenteredOffset(size, maxSize)
  {
    if requested >= 0 then ManualOffset(requested) else CenteredOffset(size, maxSize)
  }

  /** The manual offset is the only even value in [o - 1, o]. */
  lemma ManualOffsetUnique(o: int, x: int)
    requires o >= 0 && x % 2 == 0 && o - 1 <= x <= o
    ensures x == ManualOffset(o)
  {
  }

  /** The centred offset is the only even offset whose right margin exceeds
      its left margin by less than 4: the ROI is as centred as an even
      offset allows. */
  lemma CenteredOffsetUnique(size: int, maxSize: int, x: int)
    requires size <= maxSize
    requires x % 2 == 0 && 0 <= maxSize - size - 2 * x < 4
    ensures x == CenteredOffset(size, maxSize)
  {
    var off := CenteredOffset(size, maxSize);
    assert -4 < 2 * (x - off) < 4;
  }

  /** The recording-related fields of the backend as a value. */
  datatype RecState = RecState(recording: bool, framesCaptured: nat, stopRequested: bool)

  /** start_recording: a no-op while recording, otherwise clear the stop
      event, zero the counter and raise the recording flag. */
  function StartState(s: RecState): (r: RecState)
    ensures s.recording ==> r == s
    ensures !s.recording ==> r.recording && r.framesCaptured == 0 && !r.stopRequested
  {
    if s.recording then s else RecState(true, 0, false)
  }

  /** One pass of the record loop: a successful grab is counted while the loop
      runs (recording, stop not yet requested). */
  function GrabState(s: RecState, grabbed: bool): (r: RecState)
    ensures r.recording == s.recording && r.stopRequested == s.stopRequested
    ensures r.framesCaptured == if s.recording && !s.stopRequested && grabbed
                                then s.framesCaptured + 1 else s.framesCaptured
  {
    if s.recording && !s.stopRequested && grabbed then s.(framesCaptured := s.framesCaptured + 1) else s
  }

  /** stop_recording's effect: the stop event is set. */
  function StopState(s: RecState): (r: RecState)
    ensures r.stopRequested && r.recording == s.recording && r.framesCaptured == s.framesCaptured
  {
    s.(stopRequested := true)
  }

  /** The record loop leaves (and its `finally` clears the flag) when the
      writer failed to open or once the stop event is set. */
  function LoopExitState(s: RecState, writerFailed: bool): (r: RecState)
    ensures (writerFailed || s.stopRequested) ==> !r.recording
    ensures !(writerFailed || s.stopRequested) ==> r == s
    ensures r.framesCaptured == s.framesCaptured && r.stopRequested == s.stopRequested
  {
    if writerFailed || s.stopRequested then s.(recording := false) else s
  }

  /** A sequence of grab attempts. */
  function Grabs(s: RecState, attempts: seq<bool>): RecState
    decreases |attempts|
  {
    if attempts == [] then s else GrabState(Grabs(s, attempts[..|attempts| - 1]), attempts[|attempts| - 1])
  }

  /** The number of successful grabs. */
  function Successes(attempts: seq<bool>): nat
    decreases |attempts|
  {
    if attempts == [] then 0
    else Successes(attempts[..|attempts| - 1]) + (if attempts[|attempts| - 1] then 1 else 0)
  }

  /** While the loop runs, the counter grows by exactly the successful grabs. */
  lemma {:induction false} GrabsCount(s: RecState, attempts: seq<bool>)
    requires s.recording && !s.stopRequested
    ensures var r := Grabs(s, attempts);
      r.recording && !r.stopRequested && r.framesCaptured == s.framesCaptured + Successes(attempts)
    decreases |attempts|
  {
    if attempts != [] {
      GrabsCount(s, attempts[..|attempts| - 1]);
    }
  }

  /** After the stop event is set, no grab is counted any more. */
  lemma {:induction false} GrabsAfterStop(s: RecState, attempts: seq<bool>)
    requires s.stopRequested
    ensures Grabs(s, attempts) == s
    decreases |attempts|
  {
    if attempts != [] {
      GrabsAfterStop(s, attempts[..|attempts| - 1]);
    }
  }

  /** Starting from a non-recording backend, stop_recording reports exactly the
      frames grabbed since start_recording, later grab attempts change that
      count no more, and the loop then ends with the flag cleared. */
  lemma StartGrabStop(s: RecState, during: seq<bool>, after: seq<bool>)
    requires !s.recording
    ensures var stopped := StopState(Grabs(StartState(s), during));
      && stopped.framesCaptured == Successes(during)
      && Grabs(stopped, after) == stopped
      && !LoopExitState(Grabs(stopped, after), false).recording
  {
    GrabsCount(StartState(s), during);
    GrabsAfterStop(StopState(Grabs(StartState(s), during)), after);
  }

  /** A second start_recording while recording changes nothing. */
  lemma StartIdempotent(s: RecState)
    ensures StartState(StartState(s)) == StartState(s)
  {
  }

  /** The backend: the handle, the ROI written to the camera and the recording fields. */
  class Camera {
    /** `_camera is not None` */
    var hasHandle: bool
    /** the handle's IsOpen() */
    var handleOpen: bool
    var width: int
    var height: int
    var offsetX: int
    var offsetY: int
    /** Width.GetMax() / Height.GetMax() of the sensor */
    const maxWidth: int
    const maxHeight: int
    var recording: bool
    var framesCaptured: nat
    var stopRequested: bool

    function Rec(): RecState
      reads this
    {
      RecState(recording, framesCaptured, stopRequested)
    }

    /** __init__: no handle, not recording, no frames. */
    constructor (maxWidth: int, maxHeight: int)
      ensures !hasHandle && !IsConnected()
      ensures this.maxWidth == maxWidth && this.maxHeight == maxHeight
      ensures Rec() == RecState(false, 0, false)
    {
      this.maxWidth := maxWidth;
      this.maxHeight := maxHeight;
      hasHandle := false;
      handleOpen := false;
      width, height, offsetX, offsetY := 0, 0, 0, 0;
      recording := false;
      framesCaptured := 0;
      stopRequested := false;
    }

    /** is_connected: a handle exists and reports open. */
    function IsConnected(): (c: bool)
      reads this
      ensures c <==> hasHandle && handleOpen
    {
      hasHandle && handleOpen
    }

    /** is_recording */
    function IsRecording(): (r: bool)
      reads this
      ensures r == Rec().recording
    {
      recording
    }

    /** _apply_settings, ROI part: offsets reset to 0, the size set, then each
        offset written as RoiOffset computes it. */
    method ApplySettings(s: CameraSettings)
      modifies this
      ensures width == s.width && height == s.height
      ensures offsetX == RoiOffset(s.offsetX, s.width, maxWidth)
      ensures offsetY == RoiOffset(s.offsetY, s.height, maxHeight)
      ensures Rec() == old(Rec()) && hasHandle == old(hasHandle) && handleOpen == old(handleOpen)
    {
      offsetX := 0;
      offsetY := 0;
      width := s.width;
      height := s.height;
      if s.offsetX >= 0 {
        offsetX := (s.offsetX / 2) * 2;
      } else {
        offsetX := ((maxWidth - s.width) / 2 / 2) * 2;
      }
      if s.offsetY >= 0 {
        offsetY := (s.offsetY / 2) * 2;
      } else {
        offsetY := ((maxHeight - s.height) / 2 / 2) * 2;
      }
    }

    /** start_recording */
    method StartRecording()
      modifies this
      ensures Rec() == StartState(old(Rec()))
      ensures hasHandle == old(hasHandle) && handleOpen == old(handleOpen)
    {
      if recording {
        return;
      }
      stopRequested := false;
      framesCaptured := 0;
      recording := true;
    }

    /** One pass of _record_loop: count a successful grab. */
    method RecordLoopGrab(grabbed: bool)
      modifies this
      ensures Rec() == GrabState(old(Rec()), grabbed)
      ensures hasHandle == old(hasHandle) && handleOpen == old(handleOpen)
    {
      if recording && !stopRequested && grabbed {
        framesCaptured := framesCaptured + 1;
      }
    }

    /** _record_loop's exit: after a writer failure or once stop is requested,
        the flag is cleared. */
    method RecordLoopExit(writerFailed: bool)
      modifies this
      ensures Rec() == LoopExitState(old(Rec()), writerFailed)
      ensures hasHandle == old(hasHandle) && handleOpen == old(handleOpen)
    {
      if writerFailed || stopRequested {
        recording := false;
      }
    }

    /** stop_recording: set the stop event and report the frame count. */
    method StopRecording() returns (frames: nat)
      modifies this
      ensures Rec() == StopState(old(Rec()))
      ensures frames == old(framesCaptured)
      ensures hasHandle == old(hasHandle) && handleOpen == old(handleOpen)
    {
      stopRequested := true;
      frames := framesCaptured;
    }
  }
}
