/** The stimulus window's frame arithmetic (stimulus/stimulus_window.py):
    rounding durations to frame counts, the frame duration, the choice of the
    refresh rate after measuring it, and closing the window. Buffer swaps are
    abstract events; the measured elapsed time is an input. */
module StimulusWindowModel {
  import opened Wrappers

  /** Python's round() on a real: nearest integer, ties to the even neighbour. */
  function RoundHalfEven(x: real): (r: int)
    ensures r as real - x <= 0.5 && x - r as real <= 0.5
    ensures (r as real - x == 0.5 || x - r as real == 0.5) ==> r % 2 == 0
  {
    var fl := x.Floor;
    var frac := x - fl as real;
    if frac < 0.5 then fl
    else if frac > 0.5 then fl + 1
    else if fl % 2 == 0 then fl
    else fl + 1
  }

  /** The two properties in RoundHalfEven's contract determine its result. */
  lemma RoundHalfEvenUnique(x: real, n: int)
    requires n as real - x <= 0.5 && x - n as real <= 0.5
    requires (n as real - x == 0.5 || x - n as real == 0.5) ==> n % 2 == 0
    ensures n == RoundHalfEven(x)
  {
    var r := RoundHalfEven(x);
  }

  /** Rounding is monotone. */
  lemma RoundHalfEvenMonotone(x: real, y: real)
    requires x <= y
    ensures RoundHalfEven(x) <= RoundHalfEven(y)
  {
    var rx, ry := RoundHalfEven(x), RoundHalfEven(y);
  }

  /** duration_to_frames: the nearest frame count, never less than one. */
  function DurationToFrames(seconds: real, rate: real): (n: nat)
    ensures n >= 1
    ensures RoundHalfEven(seconds * rate) >= 1 ==> n == RoundHalfEven(seconds * rate)
    ensures RoundHalfEven(seconds * rate) < 1 ==> n == 1
  {
    var r := RoundHalfEven(seconds * rate);
    if r < 1 then 1 else r
  }

  /** For a fixed non-negative rate, a longer duration never gets fewer frames. */
  lemma DurationToFramesMonotone(d1: real, d2: real, rate: real)
    requires 0.0 <= rate
    requires d1 <= d2
    ensures DurationToFrames(d1, rate) <= DurationToFrames(d2, rate)
  {
    var x, y := d1 * rate, d2 * rate;
    assert x <= y by {
      ScaleMonotone(d1, d2, rate);
    }
    RoundHalfEvenMonotone(x, y);
  }

  lemma ScaleMonotone(x: real, y: real, k: real)
    requires 0.0 <= k && x <= y
    ensures x * k <= y * k
  {
    assert (y - x) * k >= 0.0;
    assert y * k - x * k == (y - x) * k;
  }

  /** A duration that is a whole number k >= 1 of frames converts to exactly k frames. */
  lemma DurationToFramesExact(seconds: real, rate: real, k: int)
    requires k >= 1
    requires seconds * rate == k as real
    ensures DurationToFrames(seconds, rate) == k
  {
    RoundHalfEvenUnique(seconds * rate, k);
  }

  /** frame_duration: the length of one frame in seconds. */
  function FrameDuration(rate: real): (d: real)
    requires rate > 0.0
    ensures d > 0.0 && d * rate == 1.0
  {
    1.0 / rate
  }

  const WarmupFlips: nat := 10
  const TimedFlips: nat := 100
  const FallbackRate: real := 60.0
  const MinRate: real := 30.0
  const MaxRate: real := 240.0

  /** The refresh rate accepted from a measurement that took `elapsed`
      seconds for the timed flips (a zero elapsed time raises in the source
      and falls back like any other failure). */
  function AcceptedRate(elapsed: real): (rate: real)
    ensures MinRate <= rate <= MaxRate
    ensures elapsed != 0.0 && MinRate <= TimedFlips as real / elapsed <= MaxRate ==>
              rate == TimedFlips as real / elapsed
    ensures !(elapsed != 0.0 && MinRate <= TimedFlips as real / elapsed <= MaxRate) ==>
              rate == FallbackRate
  {
    if elapsed != 0.0 && MinRate <= TimedFlips as real / elapsed <= MaxRate
    then TimedFlips as real / elapsed
    else FallbackRate
  }

  /** _measure_frame_rate: skip in dev mode, otherwise flip 10 warm-up and 100
      timed frames and keep the measured rate only when it is in [30, 240].
      `failsAt` is the flip (counted from 0) that raises, if any. Returns the
      rate and the number of flips that were performed. */
  method MeasureFrameRate(devMode: bool, failsAt: Option<nat>, elapsed: real)
    returns (rate: real, flips: nat)
    ensures MinRate <= rate <= MaxRate
    ensures devMode ==> rate == FallbackRate && flips == 0
    ensures !devMode && failsAt.Some? && failsAt.value < WarmupFlips + TimedFlips ==>
              rate == FallbackRate && flips == failsAt.value
    ensures !devMode && !(failsAt.Some? && failsAt.value < WarmupFlips + TimedFlips) ==>
              flips == WarmupFlips + TimedFlips && rate == AcceptedRate(elapsed)
  {
    if devMode {
      return FallbackRate, 0;
    }
    flips := 0;
    for i := 0 to WarmupFlips
      invariant flips == i
      invariant failsAt.Some? ==> failsAt.value >= flips
    {
      if failsAt == Some(flips) {
        return FallbackRate, flips;
      }
      flips := flips + 1;
    }
    for i := 0 to TimedFlips
      invariant flips == WarmupFlips + i
      invariant failsAt.Some? ==> failsAt.value >= flips
    {
      if failsAt == Some(flips) {
        return FallbackRate, flips;
      }
      flips := flips + 1;
    }
    rate := AcceptedRate(elapsed);
  }

  datatype StimKind = ShapeStim(shape: string) | ImageStim(path: string)

  /** The window with its table of prepared stimuli. */
  class StimulusWindow {
    const frameRate: real
    var stims: map<string, StimKind>
    var isOpen: bool
    /** how many times the underlying window's close was invoked */
    var windowCloses: nat

    constructor (devMode: bool, failsAt: Option<nat>, elapsed: real)
      ensures MinRate <= frameRate <= MaxRate
      ensures isOpen && stims == map[] && windowCloses == 0
    {
      var rate, _ := MeasureFrameRate(devMode, failsAt, elapsed);
      frameRate := rate;
      stims := map[];
      isOpen := true;
      windowCloses := 0;
    }

    /** prepare_shape / prepare_image: register a pre-built stimulus under a name. */
    method Prepare(name: string, kind: StimKind)
      modifies this
      ensures stims == old(stims)[name := kind]
      ensures isOpen == old(isOpen) && windowCloses == old(windowCloses)
    {
      stims := stims[name := kind];
    }

    /** close: empty the table and close the window once; a second call changes nothing. */
    method Close()
      modifies this
      ensures stims == map[] && !isOpen
      ensures windowCloses == if old(isOpen) then old(windowCloses) + 1 else old(windowCloses)
    {
      stims := map[];
      if !isOpen {
        return;
      }
      windowCloses := windowCloses + 1;
      isOpen := false;
    }
  }
}
