/** The session orchestrator (core/experiment_engine.py): the controller
    commands, the pause and confirm gates, and the worker's queue and turn
    loops. The threading events become boolean fields; the operator's
    commands arrive as a script that the worker consumes whenever it blocks
    on a gate, and each trial supplies its abort oracle, its camera frame
    count and the commands issued while it ran. */
module ExperimentEngineModel {
  import opened Wrappers
  import opened Enums
  import opened SettingsModel
  import opened StimulusWindowModel
  import opened SessionQueueModel
  import opened TrialProtocolModel

  // ------------------------------------------------------------ commands

  /** The operator's controller calls that the worker can observe. */
  datatype Command = DoPause | DoResume | DoConfirm | DoAbort | DoRetry

  /** The engine's state and gates: `pauseOpen` is the pause event being set,
      `confirmOpen` the confirm event; protocolAbort is the protocol's abort
      flag, None while there is no protocol. */
  datatype EngineFlags = EngineFlags(state: ExperimentState, abortFlag: bool, pauseOpen: bool,
                                     confirmOpen: bool, protocolAbort: Option<bool>)

  /** Set the protocol's flag when a protocol exists. */
  function WithProtocolAbort(p: Option<bool>, v: bool): (r: Option<bool>)
    ensures r.Some? <==> p.Some?
    ensures r.Some? ==> r.value == v
  {
    if p.Some? then Some(v) else None
  }

  /** pause(): close the pause gate, enter Paused, interrupt the trial. */
  function PauseFlags(f: EngineFlags): EngineFlags {
    f.(pauseOpen := false, state := Paused, protocolAbort := WithProtocolAbort(f.protocolAbort, true))
  }

  /** resume(): re-enable the protocol, open the pause gate, enter Running. */
  function ResumeFlags(f: EngineFlags): EngineFlags {
    f.(protocolAbort := WithProtocolAbort(f.protocolAbort, false), pauseOpen := true, state := Running)
  }

  /** confirm_next(): open the confirm gate. */
  function ConfirmFlags(f: EngineFlags): EngineFlags {
    f.(confirmOpen := true)
  }

  /** request_abort(): raise the abort flag, open both gates, interrupt the trial. */
  function AbortFlags(f: EngineFlags): EngineFlags {
    f.(abortFlag := true, pauseOpen := true, confirmOpen := true,
       protocolAbort := WithProtocolAbort(f.protocolAbort, true))
  }

  /** reset(): no protocol, abort cleared, pause gate open, confirm gate closed, Idle. */
  function ResetFlags(f: EngineFlags): EngineFlags {
    EngineFlags(Idle, false, true, false, None)
  }

  /** start(): reset, then Running. */
  function StartFlags(f: EngineFlags): EngineFlags {
    ResetFlags(f).(state := Running)
  }

  /** The effect of one command on the flags; retry_current only touches the queue. */
  function ApplyCommand(f: EngineFlags, c: Command): EngineFlags {
    match c
    case DoPause => PauseFlags(f)
    case DoResume => ResumeFlags(f)
    case DoConfirm => ConfirmFlags(f)
    case DoAbort => AbortFlags(f)
    case DoRetry => f
  }

  /** Commands applied in order. */
  function ApplyCommands(f: EngineFlags, cs: seq<Command>): EngineFlags
    decreases |cs|
  {
    if cs == [] then f else ApplyCommand(ApplyCommands(f, cs[..|cs| - 1]), cs[|cs| - 1])
  }

  /** The commands that set the pause event, and those that set the confirm event. */
  predicate OpensPause(c: Command) {
    c.DoResume? || c.DoAbort?
  }

  predicate OpensConfirm(c: Command) {
    c.DoConfirm? || c.DoAbort?
  }

  /** A second request_abort changes nothing. */
  lemma AbortIdempotent(f: EngineFlags)
    ensures AbortFlags(AbortFlags(f)) == AbortFlags(f)
  {
  }

  /** request_abort leaves the abort flag set with both gates open and the
      protocol told to stop. */
  lemma AbortReleasesGates(f: EngineFlags)
    ensures var r := AbortFlags(f);
      r.abortFlag && r.pauseOpen && r.confirmOpen && r.state == f.state &&
      (f.protocolAbort.Some? ==> r.protocolAbort == Some(true)) && (f.protocolAbort.None? ==> r.protocolAbort.None?)
  {
  }

  /** resume after pause reopens the gate, returns to Running and re-enables
      the protocol; the abort flag and the confirm gate are untouched. */
  lemma ResumeUndoesPause(f: EngineFlags)
    ensures ResumeFlags(PauseFlags(f)) ==
            f.(state := Running, pauseOpen := true, protocolAbort := WithProtocolAbort(f.protocolAbort, false))
  {
  }

  /** After reset the flags do not depend on what came before. */
  lemma ResetForgets(f: EngineFlags, g: EngineFlags)
    ensures ResetFlags(f) == ResetFlags(g)
    ensures var r := ResetFlags(f); !r.abortFlag && r.pauseOpen && !r.confirmOpen && r.state == Idle
  {
  }

  /** Only request_abort raises the abort flag and no command lowers it: after
      a command script the flag is set exactly when it was set before or the
      script holds an abort. */
  lemma {:induction false} AbortFlagAfterCommands(f: EngineFlags, cs: seq<Command>)
    ensures ApplyCommands(f, cs).abortFlag <==> f.abortFlag || DoAbort in cs
    decreases |cs|
  {
    if cs != [] {
      var init := cs[..|cs| - 1];
      AbortFlagAfterCommands(f, init);
      assert cs == init + [cs[|cs| - 1]];
      assert DoAbort in cs <==> DoAbort in init || cs[|cs| - 1] == DoAbort;
    }
  }

  /** Without a resume or an abort, a closed pause gate stays closed. */
  lemma {:induction false} PauseGateStaysClosed(f: EngineFlags, cs: seq<Command>)
    requires !f.pauseOpen
    requires forall j :: 0 <= j < |cs| ==> !OpensPause(cs[j])
    ensures !ApplyCommands(f, cs).pauseOpen
    decreases |cs|
  {
    if cs != [] {
      PauseGateStaysClosed(f, cs[..|cs| - 1]);
    }
  }

  /** Without a confirm or an abort, a closed confirm gate stays closed. */
  lemma {:induction false} ConfirmGateStaysClosed(f: EngineFlags, cs: seq<Command>)
    requires !f.confirmOpen
    requires forall j :: 0 <= j < |cs| ==> !OpensConfirm(cs[j])
    ensures !ApplyCommands(f, cs).confirmOpen
    decreases |cs|
  {
    if cs != [] {
      ConfirmGateStaysClosed(f, cs[..|cs| - 1]);
    }
  }

  // ------------------------------------------------- per-shape bookkeeping

  /** is_last_queue_item and is_last_shape: `index == total - 1` on Python ints. */
  function IsLast(index: nat, total: nat): (b: bool)
    ensures b <==> index + 1 == total
  {
    index as int == total as int - 1
  }

  /** How many entries of s equal x. */
  function Occurrences(s: seq<Stimulus>, x: Stimulus): (n: nat)
    ensures n <= |s|
    decreases |s|
  {
    if s == [] then 0 else Occurrences(s[..|s| - 1], x) + (if s[|s| - 1] == x then 1 else 0)
  }

  /** shape_instance: the occurrences of shapes[idx] in shapes[..idx + 1]. */
  function ShapeInstance(shapes: seq<Stimulus>, idx: nat): (n: nat)
    requires idx < |shapes|
    ensures 1 <= n <= idx + 1
  {
    var p := shapes[..idx + 1];
    assert p[..idx] == shapes[..idx];
    Occurrences(p, shapes[idx])
  }

  /** A longer prefix holds at least as many occurrences. */
  lemma {:induction false} OccurrencesPrefix(s: seq<Stimulus>, x: Stimulus, i: nat, j: nat)
    requires i <= j <= |s|
    ensures Occurrences(s[..i], x) <= Occurrences(s[..j], x)
    decreases j - i
  {
    if i < j {
      OccurrencesPrefix(s, x, i, j - 1);
      assert s[..j][..j - 1] == s[..j - 1];
    }
  }

  /** Two positions of the same stimulus get different instance numbers, the
      later one the larger: within a turn no two trials share a shape name and
      an instance, so no two get the same video file name. */
  lemma ShapeInstancesDistinct(shapes: seq<Stimulus>, i: nat, j: nat)
    requires i < j < |shapes| && shapes[i] == shapes[j]
    ensures ShapeInstance(shapes, i) < ShapeInstance(shapes, j)
  {
    var x := shapes[j];
    OccurrencesPrefix(shapes, x, i + 1, j);
    assert shapes[..j + 1][..j] == shapes[..j];
  }

  // ------------------------------------------------------ trial records

  /** What a trial supplies: when its abort checks first see the flag, the
      camera's frame count, and the commands issued while it ran. */
  datatype TrialInput = TrialInput(abortAt: Option<nat>, framesRecorded: int, during: seq<Command>)

  /** One protocol.run of a turn, with what the engine computed for it and
      whether its video was discarded. abortAfter is the abort flag read
      right after the run; events is the run's trace, and forwarded holds the
      beep counters the engine passed on to the GUI while it ran. */
  datatype TrialRecord = TrialRecord(shapeIdx: nat, name: string, instance: nat, isLastShape: bool,
                                     isLastQueueItem: bool, ok: bool, discarded: bool, abortAfter: bool,
                                     input: TrialInput, events: seq<Event>, forwarded: seq<int>)

  /** The shape index after a run: advanced on success only. */
  function NextIdx(r: TrialRecord): nat {
    if r.ok then r.shapeIdx + 1 else r.shapeIdx
  }

  /** The shape index a turn has reached after its runs. */
  function Reached(runs: seq<TrialRecord>): nat {
    if runs == [] then 0 else NextIdx(runs[|runs| - 1])
  }

  /** What the engine can count on from every run of its protocol: the abort
      checks a trial makes when none fires, the beeps a completed trial
      reports, and beeps_per_shape, the sum of the two configured repetition
      counts on which the forwarded counters are based. */
  datatype TrialPlan = TrialPlan(checks: nat, reports: nat, perShape: int)

  /** The plan of a protocol for this timing and frame rate. */
  function PlanFor(timing: TimingSettings, rate: real): TrialPlan
    requires rate > 0.0
  {
    TrialPlan(ChecksFor(timing, rate), Times(timing.trainingRepetitions) + Times(timing.measurementRepetitions),
              timing.trainingRepetitions + timing.measurementRepetitions)
  }

  /** The plan of a protocol object. */
  function PlanOf(p: TrialProtocol): TrialPlan
    requires p.Valid()
  {
    TrialPlan(p.AbortChecks(), p.TrainingReps() + p.MeasurementReps(),
              p.timing.trainingRepetitions + p.timing.measurementRepetitions)
  }

  /** A protocol built for this timing and rate has the plan computed from them. */
  lemma PlanOfProtocol(p: TrialProtocol, timing: TimingSettings, rate: real)
    requires p.Valid() && p.timing == timing && p.rate == rate && rate > 0.0
    ensures PlanOf(p) == PlanFor(timing, rate)
  {
  }

  /** The counters forwarded for the beep reports of one run: base_beeps + cur
      for each reported cur, in order. */
  function Forwarded(base: int, reports: seq<int>): (fs: seq<int>)
    ensures |fs| == |reports|
  {
    seq(|reports|, k requires 0 <= k < |reports| => base + reports[k])
  }

  /** What a run's trace shows and what the engine forwarded of it: the trace
      opens with TRIAL_START for its shape, leaves no tone playing and no
      recording open, and reports beeps 1, 2, ... in order, at most one per
      repetition; a successful run reports all of them and plays the
      instruction the two last flags call for; each report cur went to the
      GUI as shapeIdx * beeps_per_shape + cur. */
  predicate RunTrace(r: TrialRecord, plan: TrialPlan) {
    var s := Summarize(Quiet, r.events);
    && r.events != [] && r.events[0] == Log(TrialStart(r.name))
    && s.hw == Quiet && s.ok && s.starts == s.stops <= 1
    && s.beeps == Range(1, |s.beeps| + 1) && |s.beeps| <= plan.reports
    && (r.ok ==> |s.beeps| == plan.reports && |s.cues| == 3
                 && s.cues[2] == PostCue(r.isLastShape, r.isLastQueueItem))
    && r.forwarded == Forwarded(r.shapeIdx * plan.perShape, s.beeps)
  }

  /** A run whose trace keeps TrialProtocol.Run's promises, with b beeps
      reported, satisfies `RunTrace`. */
  lemma RunTraceOfRun(r: TrialRecord, plan: TrialPlan, s: Summary, b: int)
    requires s == Summarize(Quiet, r.events)
    requires 0 <= b <= plan.reports && (r.ok ==> b == plan.reports)
    requires |r.events| >= 1 && r.events[0] == Log(TrialStart(r.name))
    requires s.hw == Quiet && s.ok && s.beeps == Range(1, b + 1) && s.starts == s.stops <= 1
    requires r.ok ==> |s.cues| == 3 && s.cues[2] == PostCue(r.isLastShape, r.isLastQueueItem)
    requires r.forwarded == Forwarded(r.shapeIdx * plan.perShape, s.beeps)
    ensures RunTrace(r, plan)
  {
  }

  /** `RunTrace` does not depend on what happened to the video after the run. */
  lemma RunTraceOfFlags(r: TrialRecord, r': TrialRecord, plan: TrialPlan)
    requires RunTrace(r, plan)
    requires r' == r.(discarded := r'.discarded, abortAfter := r'.abortAfter)
    ensures RunTrace(r', plan)
  {
  }

  /** What the engine computed for a run of `shapes`, and how its outcome
      follows from the protocol's abort checks. */
  predicate RunFacts(r: TrialRecord, shapes: seq<Stimulus>, isLastQueueItem: bool, plan: TrialPlan) {
    && r.shapeIdx < |shapes|
    && r.name == TrialShapeName(shapes[r.shapeIdx])
    && r.instance == ShapeInstance(shapes, r.shapeIdx)
    && r.isLastShape == IsLast(r.shapeIdx, |shapes|)
    && r.isLastQueueItem == isLastQueueItem
    && (r.ok <==> !Hit(r.input.abortAt, 0, plan.checks))
    && (r.discarded <==> !r.ok && !r.abortAfter)
  }

  /** Every run's trace shows what `RunTrace` says. */
  predicate RunsTraces(runs: seq<TrialRecord>, plan: TrialPlan) {
    forall k {:trigger RunTrace(runs[k], plan)} :: 0 <= k < |runs| ==> RunTrace(runs[k], plan)
  }

  /** The runs of one turn: each run's facts hold, each run is at the shape
      index the runs before it reached, and no run but the last saw an abort. */
  predicate RunsFacts(runs: seq<TrialRecord>, shapes: seq<Stimulus>, isLastQueueItem: bool, plan: TrialPlan)
    decreases |runs|
  {
    runs == [] ||
    var init := runs[..|runs| - 1];
    var r := runs[|runs| - 1];
    && RunsFacts(init, shapes, isLastQueueItem, plan)
    && RunFacts(r, shapes, isLastQueueItem, plan)
    && r.shapeIdx == Reached(init)
    && (init != [] ==> !init[|init| - 1].abortAfter)
  }

  lemma RunsFactsSnoc(runs: seq<TrialRecord>, shapes: seq<Stimulus>, isLastQueueItem: bool, plan: TrialPlan,
                      r: TrialRecord)
    requires RunsFacts(runs, shapes, isLastQueueItem, plan)
    requires RunFacts(r, shapes, isLastQueueItem, plan) && r.shapeIdx == Reached(runs)
    requires runs != [] ==> !runs[|runs| - 1].abortAfter
    ensures RunsFacts(runs + [r], shapes, isLastQueueItem, plan)
    ensures Reached(runs + [r]) == NextIdx(r)
  {
    assert (runs + [r])[..|runs|] == runs;
  }

  /** A run at the reached shape, on the next trial input, extends the runs
      of a turn with their facts, traces and inputs. */
  lemma RunsSnoc(runs: seq<TrialRecord>, shapes: seq<Stimulus>, isLastQueueItem: bool, plan: TrialPlan,
                 r: TrialRecord, trials: seq<TrialInput>, ti0: nat, ti: nat)
    requires RunsFacts(runs, shapes, isLastQueueItem, plan) && RunsTraces(runs, plan)
    requires RunFacts(r, shapes, isLastQueueItem, plan) && RunTrace(r, plan) && r.shapeIdx == Reached(runs)
    requires runs != [] ==> !runs[|runs| - 1].abortAfter
    requires ti0 <= ti < |trials| && Inputs(runs) == trials[ti0..ti] && r.input == trials[ti]
    ensures RunsFacts(runs + [r], shapes, isLastQueueItem, plan) && RunsTraces(runs + [r], plan)
    ensures Reached(runs + [r]) == NextIdx(r) && Inputs(runs + [r]) == trials[ti0..ti + 1]
  {
    RunsFactsSnoc(runs, shapes, isLastQueueItem, plan, r);
    RunsTracesSnoc(runs, plan, r);
    InputsSnoc(runs, r, trials, ti0, ti);
  }

  lemma RunsTracesSnoc(runs: seq<TrialRecord>, plan: TrialPlan, r: TrialRecord)
    requires RunsTraces(runs, plan) && RunTrace(r, plan)
    ensures RunsTraces(runs + [r], plan)
  {
    forall k | 0 <= k < |runs| + 1
      ensures RunTrace((runs + [r])[k], plan)
    {
      if k < |runs| {
        assert (runs + [r])[k] == runs[k];
      }
    }
  }

  lemma InputsSnoc(runs: seq<TrialRecord>, r: TrialRecord, trials: seq<TrialInput>, ti0: nat, ti: nat)
    requires ti0 <= ti < |trials| && Inputs(runs) == trials[ti0..ti] && r.input == trials[ti]
    ensures Inputs(runs + [r]) == trials[ti0..ti + 1]
  {
    assert (runs + [r])[..|runs|] == runs;
    assert trials[ti0..ti + 1] == trials[ti0..ti] + [trials[ti]];
  }

  /** Run k of a turn: its facts, its shape index (0 for the first run, the
      index the previous run left otherwise), and no abort seen after it
      unless it is the last. */
  lemma {:induction false} RunsFactsAt(runs: seq<TrialRecord>, shapes: seq<Stimulus>, isLastQueueItem: bool,
                                       plan: TrialPlan, k: nat)
    requires RunsFacts(runs, shapes, isLastQueueItem, plan) && k < |runs|
    ensures RunFacts(runs[k], shapes, isLastQueueItem, plan)
    ensures runs[k].shapeIdx == if k == 0 then 0 else NextIdx(runs[k - 1])
    ensures k + 1 < |runs| ==> !runs[k].abortAfter
    decreases |runs|
  {
    var init := runs[..|runs| - 1];
    if k < |runs| - 1 {
      RunsFactsAt(init, shapes, isLastQueueItem, plan, k);
      assert init[k] == runs[k];
      if k > 0 {
        assert init[k - 1] == runs[k - 1];
      }
    } else if k > 0 {
      assert init[k - 1] == runs[k - 1];
    }
  }

  /** Within a turn every run but the last either succeeded and was followed by
      the next shape, or failed without abort, had its video discarded and was
      followed by a retry of the same shape. */
  lemma TurnRetriesSameShape(runs: seq<TrialRecord>, shapes: seq<Stimulus>, isLastQueueItem: bool,
                             plan: TrialPlan, k: nat)
    requires RunsFacts(runs, shapes, isLastQueueItem, plan)
    requires k + 1 < |runs|
    ensures runs[k].ok ==> runs[k + 1].shapeIdx == runs[k].shapeIdx + 1
    ensures !runs[k].ok ==> runs[k].discarded && runs[k + 1].shapeIdx == runs[k].shapeIdx
  {
    RunsFactsAt(runs, shapes, isLastQueueItem, plan, k);
    RunsFactsAt(runs, shapes, isLastQueueItem, plan, k + 1);
  }

  /** The shape indices of the successful runs, in order. */
  function OkShapes(runs: seq<TrialRecord>): seq<int>
    decreases |runs|
  {
    if runs == [] then []
    else
      var last := runs[|runs| - 1];
      OkShapes(runs[..|runs| - 1]) + (if last.ok then [last.shapeIdx as int] else [])
  }

  /** Each shape below the reached index was completed by exactly one
      successful run, and the shapes were completed in order. */
  lemma {:induction false} RunsCompleteInOrder(runs: seq<TrialRecord>, shapes: seq<Stimulus>,
                                               isLastQueueItem: bool, plan: TrialPlan)
    requires RunsFacts(runs, shapes, isLastQueueItem, plan)
    ensures OkShapes(runs) == Range(0, Reached(runs))
    decreases |runs|
  {
    if runs == [] {
      RangeOne(0);
    } else {
      var init := runs[..|runs| - 1];
      var last := runs[|runs| - 1];
      RunsCompleteInOrder(init, shapes, isLastQueueItem, plan);
      if last.ok {
        RangeSnoc(0, last.shapeIdx);
      }
    }
  }

  /** The counters forwarded for one run are base_beeps + 1, base_beeps + 2,
      ..., one per beep reported: at most one per repetition, and all of them
      when the run succeeded. */
  lemma ForwardedRun(r: TrialRecord, plan: TrialPlan)
    requires RunTrace(r, plan)
    ensures |r.forwarded| <= plan.reports && (r.ok ==> |r.forwarded| == plan.reports)
    ensures forall k :: 0 <= k < |r.forwarded| ==> r.forwarded[k] == r.shapeIdx * plan.perShape + k + 1
  {
    var beeps := Summarize(Quiet, r.events).beeps;
    forall k | 0 <= k < |r.forwarded|
      ensures r.forwarded[k] == r.shapeIdx * plan.perShape + k + 1
    {
      RangeAt(1, |beeps| + 1, k);
    }
  }

  /** Along the runs of a turn the shape index never falls, and it rises
      after every successful run. */
  lemma {:induction false} RunsShapesRise(runs: seq<TrialRecord>, shapes: seq<Stimulus>, isLastQueueItem: bool,
                                          plan: TrialPlan, i: nat, j: nat)
    requires RunsFacts(runs, shapes, isLastQueueItem, plan)
    requires i <= j < |runs|
    ensures runs[i].shapeIdx <= runs[j].shapeIdx
    ensures i < j && runs[i].ok ==> runs[i].shapeIdx < runs[j].shapeIdx
    decreases j
  {
    if i < j {
      RunsShapesRise(runs, shapes, isLastQueueItem, plan, i, j - 1);
      RunsFactsAt(runs, shapes, isLastQueueItem, plan, j);
    }
  }

  /** The beep counters the engine forwards during a turn: every one lies in
      1..total_beeps_in_turn (len(shapes) * beeps_per_shape); after a
      successful run every later run forwards only larger counters, so the
      counter never moves back across a completed shape; and a retry of a
      shape forwards the same counters as the failed run before it. This
      holds when no run reports more beeps than beeps_per_shape, as when
      both repetition counts are non-negative. */
  lemma ForwardedInTurn(runs: seq<TrialRecord>, shapes: seq<Stimulus>, isLastQueueItem: bool, plan: TrialPlan,
                        i: nat, j: nat, x: nat, y: nat)
    requires RunsFacts(runs, shapes, isLastQueueItem, plan) && RunsTraces(runs, plan)
    requires plan.reports <= plan.perShape
    requires i < |runs| && j < |runs| && x < |runs[i].forwarded| && y < |runs[j].forwarded|
    ensures 1 <= runs[i].forwarded[x] <= |shapes| * plan.perShape
    ensures i < j && runs[i].ok ==> runs[i].forwarded[x] < runs[j].forwarded[y]
    ensures runs[i].shapeIdx == runs[j].shapeIdx ==> (runs[i].forwarded[x] == runs[j].forwarded[y] <==> x == y)
  {
    var ri, rj := runs[i], runs[j];
    ForwardedRun(ri, plan);
    ForwardedRun(rj, plan);
    RunsFactsAt(runs, shapes, isLastQueueItem, plan, i);
    RunsFactsAt(runs, shapes, isLastQueueItem, plan, j);
    if i < j && ri.ok {
      RunsShapesRise(runs, shapes, isLastQueueItem, plan, i, j);
    }
    CounterOrder(ri.shapeIdx, rj.shapeIdx, |shapes|, plan.perShape, plan.reports, x, y);
  }

  /** The arithmetic of base_beeps + cur: counters of distinct shapes do not
      meet, and all lie within total_beeps_in_turn. */
  lemma CounterOrder(si: nat, sj: nat, n: nat, p: int, reports: nat, x: nat, y: nat)
    requires reports <= p && x < reports && y < reports && si < n && sj < n
    ensures 1 <= si * p + x + 1 <= n * p
    ensures si < sj ==> si * p + x + 1 < sj * p + y + 1
    ensures si == sj ==> (si * p + x + 1 == sj * p + y + 1 <==> x == y)
  {
    MulMono(0, si, p);
    MulStep(si, p);
    MulMono(si + 1, n, p);
    if si < sj {
      MulMono(si + 1, sj, p);
    }
  }

  lemma MulStep(a: nat, p: int)
    ensures (a + 1) * p == a * p + p
  {
  }

  /** Multiplying by a non-negative factor keeps the order. */
  lemma {:induction false} MulMono(a: nat, b: nat, p: int)
    requires a <= b && p >= 0
    ensures a * p <= b * p
    decreases b - a
  {
    if a < b {
      MulMono(a, b - 1, p);
      MulStep(b - 1, p);
    }
  }

  /** The trial inputs a sequence of runs consumed. */
  function Inputs(runs: seq<TrialRecord>): seq<TrialInput>
    decreases |runs|
  {
    if runs == [] then [] else Inputs(runs[..|runs| - 1]) + [runs[|runs| - 1].input]
  }

  /** Run k consumed input k. */
  lemma {:induction false} InputsAt(runs: seq<TrialRecord>, k: nat)
    requires k < |runs|
    ensures |Inputs(runs)| == |runs| && Inputs(runs)[k] == runs[k].input
    decreases |runs|
  {
    var init := runs[..|runs| - 1];
    if k < |init| {
      InputsAt(init, k);
      assert init[k] == runs[k];
    } else if init != [] {
      InputsAt(init, 0);
    }
  }

  // ------------------------------------------------------- turn records

  /** One subject turn: the queue position and item, the runs, the shape index
      reached, whether all shapes succeeded, whether the turn ran to its end
      (rather than the worker blocking), and the progress saved after it. */
  datatype TurnRecord = TurnRecord(queueIndex: nat, item: QueueItem, isLastQueueItem: bool,
                                   runs: seq<TrialRecord>, reached: nat, allOk: bool, complete: bool,
                                   saved: Option<Progress>)

  /** p is to_progress_dict() once turn `index` has advanced a queue of
      `items`: the cursor just past it, and for each item its subject, its
      repetition and whether it lies at or before that turn. */
  predicate SavedAfter(p: Progress, items: seq<QueueItem>, index: nat) {
    && p.index == index + 1 && |p.items| == |items|
    && forall k {:trigger p.items[k]} :: 0 <= k < |items| ==>
         p.items[k] == ProgressEntry(items[k].subject, items[k].rep, k <= index)
  }

  /** Items holding the same work give the same saved progress. */
  lemma SavedAfterSameWork(p: Progress, a: seq<QueueItem>, b: seq<QueueItem>, index: nat)
    requires SameWork(a, b) && SavedAfter(p, a, index)
    ensures SavedAfter(p, b, index)
  {
  }

  /** What the engine computed for a turn at `queueIndex` of a queue holding
      `items`: its runs, how far they reached, and the progress saved when
      every shape succeeded. */
  predicate TurnRecordFacts(t: TurnRecord, items: seq<QueueItem>, plan: TrialPlan) {
    && t.isLastQueueItem == IsLast(t.queueIndex, |items|)
    && RunsFacts(t.runs, t.item.shapes, t.isLastQueueItem, plan)
    && RunsTraces(t.runs, plan)
    && t.reached == Reached(t.runs)
    && (t.allOk ==> t.complete)
    && (t.complete ==> (t.allOk <==> t.reached == |t.item.shapes|))
    && (t.saved.Some? <==> t.allOk)
    && (t.saved.Some? ==> SavedAfter(t.saved.value, items, t.queueIndex))
  }

  /** A turn that advanced the queue completed every shape of its item exactly
      once, in order. */
  lemma AdvancedTurnCompletedEveryShape(t: TurnRecord, items: seq<QueueItem>, plan: TrialPlan)
    requires TurnRecordFacts(t, items, plan) && t.allOk
    ensures OkShapes(t.runs) == Range(0, |t.item.shapes|)
  {
    RunsCompleteInOrder(t.runs, t.item.shapes, t.isLastQueueItem, plan);
  }

  /** The number of turns that advanced the queue. */
  function Advanced(turns: seq<TurnRecord>): nat
    decreases |turns|
  {
    if turns == [] then 0
    else Advanced(turns[..|turns| - 1]) + (if turns[|turns| - 1].allOk then 1 else 0)
  }

  /** The trial inputs the turns consumed, in order. */
  function TurnInputs(turns: seq<TurnRecord>): seq<TrialInput>
    decreases |turns|
  {
    if turns == [] then [] else TurnInputs(turns[..|turns| - 1]) + Inputs(turns[|turns| - 1].runs)
  }

  /** Appending a turn adds its inputs and, when it succeeded, one advance. */
  lemma TurnsSnoc(turns: seq<TurnRecord>, t: TurnRecord)
    ensures TurnInputs(turns + [t]) == TurnInputs(turns) + Inputs(t.runs)
    ensures Advanced(turns + [t]) == Advanced(turns) + (if t.allOk then 1 else 0)
  {
    assert (turns + [t])[..|turns|] == turns;
  }

  /** A turn that consumed the next inputs extends the consumed prefix. */
  lemma TurnInputsExtend(turns: seq<TurnRecord>, t: TurnRecord, trials: seq<TrialInput>, ti: nat, ti': nat)
    requires ti <= ti' <= |trials|
    requires TurnInputs(turns) == trials[..ti] && Inputs(t.runs) == trials[ti..ti']
    ensures TurnInputs(turns + [t]) == trials[..ti']
    ensures Advanced(turns + [t]) == Advanced(turns) + (if t.allOk then 1 else 0)
  {
    TurnsSnoc(turns, t);
    assert trials[..ti'] == trials[..ti] + trials[ti..ti'];
  }

  /** The abort checks of a trial for this timing and frame rate. */
  function ChecksFor(timing: TimingSettings, rate: real): nat
    requires rate > 0.0
  {
    TotalChecks(FrameTableFor(timing, rate), Times(timing.trainingRepetitions),
                Times(timing.measurementRepetitions))
  }

  /** The turns of a session: turn k took queue item start + k, its facts hold,
      and every turn before the last advanced the queue and ran to its end. */
  predicate TurnsFacts(turns: seq<TurnRecord>, start: nat, items: seq<QueueItem>, plan: TrialPlan)
    decreases |turns|
  {
    turns == [] ||
    var init := turns[..|turns| - 1];
    var t := turns[|turns| - 1];
    && TurnsFacts(init, start, items, plan)
    && t.queueIndex == start + |init| < |items|
    && t.item == items[t.queueIndex]
    && TurnRecordFacts(t, items, plan)
    && (init != [] ==> init[|init| - 1].allOk && init[|init| - 1].complete)
  }

  lemma TurnsFactsSnoc(turns: seq<TurnRecord>, start: nat, items: seq<QueueItem>, plan: TrialPlan, t: TurnRecord)
    requires TurnsFacts(turns, start, items, plan)
    requires turns != [] ==> turns[|turns| - 1].allOk && turns[|turns| - 1].complete
    requires t.queueIndex == start + |turns| < |items| && t.item == items[t.queueIndex]
    requires TurnRecordFacts(t, items, plan)
    ensures TurnsFacts(turns + [t], start, items, plan)
  {
    assert (turns + [t])[..|turns|] == turns;
  }

  /** Turn k of a session took queue item start + k; every turn before the
      last advanced the queue. */
  lemma {:induction false} TurnsFactsAt(turns: seq<TurnRecord>, start: nat, items: seq<QueueItem>, plan: TrialPlan,
                                        k: nat)
    requires TurnsFacts(turns, start, items, plan) && k < |turns|
    ensures turns[k].queueIndex == start + k < |items| && turns[k].item == items[start + k]
    ensures TurnRecordFacts(turns[k], items, plan)
    ensures k + 1 < |turns| ==> turns[k].allOk && turns[k].complete
    decreases |turns|
  {
    var init := turns[..|turns| - 1];
    if k < |turns| - 1 {
      TurnsFactsAt(init, start, items, plan, k);
      assert init[k] == turns[k];
    }
  }

  /** Before the last turn every turn advanced, so the queue moved by one per
      turn, one less when the last turn did not advance it. */
  lemma {:induction false} AdvancedCount(turns: seq<TurnRecord>, start: nat, items: seq<QueueItem>, plan: TrialPlan)
    requires TurnsFacts(turns, start, items, plan)
    ensures Advanced(turns) == if turns != [] && !turns[|turns| - 1].allOk then |turns| - 1 else |turns|
    decreases |turns|
  {
    if turns != [] {
      var init := turns[..|turns| - 1];
      AdvancedCount(init, start, items, plan);
    }
  }

  /** Work is the same as the work it is the same as. */
  lemma SameWorkTransitive(a: seq<QueueItem>, b: seq<QueueItem>, c: seq<QueueItem>)
    requires SameWork(a, b) && SameWork(b, c)
    ensures SameWork(a, c)
  {
  }

  /** What the queue loop of _run keeps true between turns: the turns so far
      consumed a prefix of the trial inputs and satisfy `TurnsFacts`, the
      cursor moved once per advanced turn, and the queue still holds the same
      work, untouched from the cursor on. */
  ghost predicate LoopFacts(turns: seq<TurnRecord>, start: nat, items0: seq<QueueItem>, plan: TrialPlan,
                            trials: seq<TrialInput>, ti: nat, index: nat, items: seq<QueueItem>, abort: bool)
  {
    && ti <= |trials|
    && TurnInputs(turns) == trials[..ti]
    && TurnsFacts(turns, start, items0, plan)
    && (turns != [] && turns[|turns| - 1].complete && !turns[|turns| - 1].allOk ==> abort)
    && index == start + Advanced(turns)
    && (turns == [] || turns[|turns| - 1].allOk ==> index == start + |turns|)
    && SameWork(items, items0)
    && (forall j :: index <= j < |items| ==> items[j] == items0[j])
  }

  /** One pass of the queue loop, from the cursor at `index1` over `items1`
      with no abort pending, keeps `LoopFacts` once its turn, if any, is
      recorded. */
  lemma LoopStep(turns: seq<TurnRecord>, start: nat, items0: seq<QueueItem>, plan: TrialPlan,
                 trials: seq<TrialInput>, ti: nat, ti': nat, index1: nat, items1: seq<QueueItem>,
                 index2: nat, items2: seq<QueueItem>, abort2: bool, t: Option<TurnRecord>)
    requires LoopFacts(turns, start, items0, plan, trials, ti, index1, items1, false)
    requires turns != [] ==> turns[|turns| - 1].complete
    requires ti <= ti' <= |trials|
    requires SameWork(items2, items1)
    requires forall j :: index2 <= j < |items2| ==> items2[j] == items1[j]
    requires t.None? ==> ti' == ti && index2 == index1 && items2 == items1
    requires t.Some? ==>
               && t.value.queueIndex == index1 < |items1|
               && t.value.item == items1[index1]
               && TurnRecordFacts(t.value, items2, plan)
               && Inputs(t.value.runs) == trials[ti..ti']
               && index2 == index1 + (if t.value.allOk then 1 else 0)
               && (t.value.complete && !t.value.allOk ==> abort2)
    ensures LoopFacts(if t.Some? then turns + [t.value] else turns, start, items0, plan,
                      trials, ti', index2, items2, abort2)
    ensures t.Some? && t.value.complete ==> abort2 || |items2| - index2 < |items1| - index1
  {
    SameWorkTransitive(items2, items1, items0);
    if t.Some? {
      if t.value.saved.Some? {
        SavedAfterSameWork(t.value.saved.value, items2, items0, t.value.queueIndex);
      }
      TurnsFactsSnoc(turns, start, items0, plan, t.value);
      TurnInputsExtend(turns, t.value, trials, ti, ti');
    }
  }

  /** How the worker ended: it finished _run, or it is blocked on a gate (or
      needs a trial outcome) that the inputs no longer supply. */
  datatype Exit = Finished | Stalled

  /** What the pause gate of a turn let through: the next step, a set abort
      flag, or a worker left waiting because the commands ran out. */
  datatype Gate = GateOpen | GateAborted | GateBlocked

  /** What one pass of the queue loop did. */
  datatype StepKind = Ran | Broke | Blocked

  /** Where setup on the worker thread raises, if it does: creating the window,
      or a later step (stimuli, audio, protocol). */
  datatype SetupFault = NoFault | WindowFails | LaterStepFails

  // ------------------------------------------------------------- engine

  class Engine {
    var state: ExperimentState
    var abortFlag: bool
    /** the pause event is set (not paused) */
    var pauseOpen: bool
    /** the confirm event is set */
    var confirmOpen: bool
    var protocol: TrialProtocol?
    /** `_win`: the stimulus window while the worker holds one */
    var win: StimulusWindow?
    /** the queue that setup() built */
    const queue: SessionQueue

    ghost predicate Valid()
      reads queue
    {
      queue.Valid()
    }

    function Flags(): EngineFlags
      reads this, protocol
    {
      EngineFlags(state, abortFlag, pauseOpen, confirmOpen, if protocol == null then None else Some(protocol.abort))
    }

    /** __init__ followed by setup(): Idle, pause gate open, confirm gate
        closed, no abort, no protocol, no window. */
    constructor (queue: SessionQueue)
      requires queue.Valid()
      ensures Valid() && this.queue == queue
      ensures Flags() == EngineFlags(Idle, false, true, false, None) && win == null
    {
      this.queue := queue;
      state := Idle;
      protocol := null;
      win := null;
      abortFlag := false;
      pauseOpen := true;
      confirmOpen := false;
    }

    /** reset(): drop the protocol and the window, clear abort, open the pause
        gate, close the confirm gate, Idle. */
    method Reset()
      modifies this
      ensures Flags() == ResetFlags(old(Flags()))
      ensures protocol == null && win == null
    {
      protocol := null;
      win := null;
      abortFlag := false;
      pauseOpen := true;
      confirmOpen := false;
      state := Idle;
    }

    /** start(): reset, then Running (the worker launch is the caller's). */
    method Start()
      modifies this
      ensures Flags() == StartFlags(old(Flags()))
      ensures protocol == null && win == null
    {
      Reset();
      state := Running;
    }

    method Pause()
      modifies this, protocol
      ensures Flags() == PauseFlags(old(Flags()))
      ensures protocol == old(protocol) && win == old(win)
    {
      pauseOpen := false;
      state := Paused;
      if protocol != null {
        protocol.RequestAbort();
      }
    }

    method Resume()
      modifies this, protocol
      ensures Flags() == ResumeFlags(old(Flags()))
      ensures protocol == old(protocol) && win == old(win)
    {
      if protocol != null {
        protocol.abort := false;
      }
      pauseOpen := true;
      state := Running;
    }

    method ConfirmNext()
      modifies this
      ensures Flags() == ConfirmFlags(old(Flags()))
      ensures protocol == old(protocol) && win == old(win)
    {
      confirmOpen := true;
    }

    method RequestAbort()
      modifies this, protocol
      ensures Flags() == AbortFlags(old(Flags()))
      ensures protocol == old(protocol) && win == old(win)
    {
      abortFlag := true;
      pauseOpen := true;
      confirmOpen := true;
      if protocol != null {
        protocol.RequestAbort();
      }
    }

    /** retry_current(): reset the current item, which on a consistent queue
        leaves it as it was. */
    method RetryCurrent()
      requires Valid()
      modifies queue
      ensures Valid() && queue.State() == old(queue.State())
    {
      ResetCurrentIsNoOp(queue.State());
      queue.ResetCurrent();
    }

    /** One operator command. */
    method Do(c: Command)
      requires Valid()
      modifies this, queue, protocol
      ensures Flags() == ApplyCommand(old(Flags()), c)
      ensures old(abortFlag) ==> abortFlag
      ensures Valid() && queue.State() == old(queue.State())
      ensures protocol == old(protocol) && win == old(win)
    {
      match c {
        case DoPause => Pause();
        case DoResume => Resume();
        case DoConfirm => ConfirmNext();
        case DoAbort => RequestAbort();
        case DoRetry => RetryCurrent();
      }
    }

    /** Commands issued while a trial runs, in order. */
    method DoAll(cs: seq<Command>)
      requires Valid()
      modifies this, queue, protocol
      ensures Flags() == ApplyCommands(old(Flags()), cs)
      ensures old(abortFlag) ==> abortFlag
      ensures Valid() && queue.State() == old(queue.State())
      ensures protocol == old(protocol) && win == old(win)
    {
      for i := 0 to |cs|
        invariant Flags() == ApplyCommands(old(Flags()), cs[..i])
        invariant old(abortFlag) ==> abortFlag
        invariant Valid() && queue.State() == old(queue.State())
        invariant protocol == old(protocol) && win == old(win)
      {
        assert cs[..i + 1][..i] == cs[..i];
        Do(cs[i]);
      }
      assert cs[..|cs|] == cs;
    }

    /** _check_pause: while the pause gate is closed, take the operator's next
        command. Returns the position after the commands taken; the gate is
        then open, or the script is used up and the worker stays blocked. */
    method CheckPause(cmds: seq<Command>, ci: nat) returns (next: nat)
      requires Valid() && ci <= |cmds|
      modifies this, queue, protocol
      ensures ci <= next <= |cmds|
      ensures Flags() == ApplyCommands(old(Flags()), cmds[ci..next])
      ensures old(abortFlag) ==> abortFlag
      ensures old(pauseOpen) ==> next == ci
      ensures pauseOpen || next == |cmds|
      ensures !old(pauseOpen) && pauseOpen ==> next > ci && OpensPause(cmds[next - 1])
      ensures forall j :: ci <= j < next - 1 ==> !OpensPause(cmds[j])
      ensures Valid() && queue.State() == old(queue.State())
      ensures protocol == old(protocol) && win == old(win)
    {
      next := ci;
      if pauseOpen {
        return;
      }
      while !pauseOpen && next < |cmds|
        invariant ci <= next <= |cmds|
        invariant Flags() == ApplyCommands(old(Flags()), cmds[ci..next])
        invariant old(abortFlag) ==> abortFlag
        invariant next > ci ==> (pauseOpen <==> OpensPause(cmds[next - 1]))
        invariant forall j :: ci <= j < next - 1 ==> !OpensPause(cmds[j])
        invariant Valid() && queue.State() == old(queue.State())
        invariant protocol == old(protocol) && win == old(win)
        decreases |cmds| - next
      {
        assert cmds[ci..next + 1][..next - ci] == cmds[ci..next];
        assert cmds[ci..next + 1][next - ci] == cmds[next];
        Do(cmds[next]);
        next := next + 1;
      }
    }

    /** The confirmation wait of each turn: enter WaitingConfirm, clear the
        confirm event, then take commands until it is set again. A confirm
        issued before the clear therefore does not count. */
    method WaitConfirm(cmds: seq<Command>, ci: nat) returns (next: nat)
      requires Valid() && ci <= |cmds|
      modifies this, queue, protocol
      ensures ci <= next <= |cmds|
      ensures Flags() == ApplyCommands(old(Flags()).(state := WaitingConfirm, confirmOpen := false), cmds[ci..next])
      ensures old(abortFlag) ==> abortFlag
      ensures confirmOpen || next == |cmds|
      ensures confirmOpen ==> next > ci && OpensConfirm(cmds[next - 1])
      ensures forall j :: ci <= j < next - 1 ==> !OpensConfirm(cmds[j])
      ensures Valid() && queue.State() == old(queue.State())
      ensures protocol == old(protocol) && win == old(win)
    {
      state := WaitingConfirm;
      confirmOpen := false;
      ghost var f0 := Flags();
      next := ci;
      while !confirmOpen && next < |cmds|
        invariant ci <= next <= |cmds|
        invariant Flags() == ApplyCommands(f0, cmds[ci..next])
        invariant old(abortFlag) ==> abortFlag
        invariant next > ci ==> (confirmOpen <==> OpensConfirm(cmds[next - 1]))
        invariant next == ci ==> !confirmOpen
        invariant forall j :: ci <= j < next - 1 ==> !OpensConfirm(cmds[j])
        invariant Valid() && queue.State() == old(queue.State())
        invariant protocol == old(protocol) && win == old(win)
        decreases |cmds| - next
      {
        assert cmds[ci..next + 1][..next - ci] == cmds[ci..next];
        assert cmds[ci..next + 1][next - ci] == cmds[next];
        Do(cmds[next]);
        next := next + 1;
      }
    }

    /** protocol.run for one shape of a turn, with the name, instance and
        last-shape flag the engine computes for it, each beep report cur
        forwarded as base_beeps + cur with base_beeps = shapeIdx *
        beeps_per_shape. */
    method RunProtocol(item: QueueItem, shapeIdx: nat, isLastQueueItem: bool, input: TrialInput,
                       cameraFps: Option<real>, completedDuration: real)
      returns (run: TrialRecord)
      requires protocol != null && protocol.Valid() && shapeIdx < |item.shapes|
      modifies protocol
      ensures run.shapeIdx == shapeIdx && run.input == input && !run.discarded && !run.abortAfter
      ensures run.name == TrialShapeName(item.shapes[shapeIdx])
      ensures run.instance == ShapeInstance(item.shapes, shapeIdx)
      ensures run.isLastShape == IsLast(shapeIdx, |item.shapes|) && run.isLastQueueItem == isLastQueueItem
      ensures run.ok <==> !Hit(input.abortAt, 0, PlanOf(protocol).checks)
      ensures protocol.abort == !run.ok
      ensures RunTrace(run, PlanOf(protocol))
    {
      var shape := item.shapes[shapeIdx];
      var isLastShape := IsLast(shapeIdx, |item.shapes|);
      var perShape := protocol.timing.trainingRepetitions + protocol.timing.measurementRepetitions;
      var ok, events;
      ghost var beeps;
      ok, events, beeps := protocol.Run(shape, isLastShape, isLastQueueItem, input.abortAt, cameraFps,
                                        input.framesRecorded, completedDuration);
      var s := Summarize(Quiet, events);
      run := TrialRecord(shapeIdx, TrialShapeName(shape), ShapeInstance(item.shapes, shapeIdx), isLastShape,
                         isLastQueueItem, ok, false, false, input, events, Forwarded(shapeIdx * perShape, s.beeps));
      RunTraceOfRun(run, PlanOf(protocol), s, beeps);
    }

    /** One shape of a turn: run the protocol, then apply the commands issued
        meanwhile. The video is discarded when the run failed without an
        abort. */
    method RunShape(item: QueueItem, shapeIdx: nat, isLastQueueItem: bool, input: TrialInput,
                    cameraFps: Option<real>, completedDuration: real)
      returns (r: TrialRecord)
      requires Valid() && protocol != null && protocol.Valid() && shapeIdx < |item.shapes|
      modifies this, queue, protocol
      ensures RunFacts(r, item.shapes, isLastQueueItem, PlanOf(old(protocol)))
      ensures RunTrace(r, PlanOf(old(protocol)))
      ensures r.shapeIdx == shapeIdx && r.input == input && r.abortAfter == abortFlag
      ensures old(abortFlag) ==> abortFlag
      ensures Flags() == ApplyCommands(old(Flags()).(protocolAbort := Some(!r.ok)), input.during)
      ensures Valid() && queue.State() == old(queue.State())
      ensures protocol == old(protocol) && win == old(win)
    {
      ghost var plan := PlanOf(protocol);
      var run := RunProtocol(item, shapeIdx, isLastQueueItem, input, cameraFps, completedDuration);
      DoAll(input.during);
      r := run.(discarded := !run.ok && !abortFlag, abortAfter := abortFlag);
      RunTraceOfFlags(run, r, plan);
    }

    /** The gate a turn passes before each shape and after each discarded
        run: stop on a set abort flag, wait at the pause gate, then stop on
        an abort set while paused. */
    method PauseGate(cmds: seq<Command>, ci0: nat) returns (gate: Gate, ci: nat)
      requires Valid() && ci0 <= |cmds|
      modifies this, queue, protocol
      ensures ci0 <= ci <= |cmds|
      ensures Flags() == ApplyCommands(old(Flags()), cmds[ci0..ci])
      ensures gate == GateOpen ==> !abortFlag && pauseOpen
      ensures gate == GateAborted ==> abortFlag
      ensures gate == GateBlocked ==> ci == |cmds| && !pauseOpen
      ensures old(abortFlag) ==> abortFlag && gate == GateAborted && ci == ci0
      ensures Valid() && queue.State() == old(queue.State())
      ensures protocol == old(protocol) && win == old(win)
    {
      ci := ci0;
      if abortFlag {
        return GateAborted, ci;
      }
      ci := CheckPause(cmds, ci);
      if !pauseOpen {
        return GateBlocked, ci;
      }
      gate := if abortFlag then GateAborted else GateOpen;
    }

    /** One run at the shape the turn has reached, appended to the runs
        before it; ok is whether it succeeded. */
    method RecordRun(item: QueueItem, isLastQueueItem: bool, runs0: seq<TrialRecord>, ghost ti0: nat,
                     trials: seq<TrialInput>, ti: nat, cameraFps: Option<real>, completedDuration: real)
      returns (runs: seq<TrialRecord>, ok: bool)
      requires Valid() && protocol != null && protocol.Valid() && !abortFlag
      requires ti0 <= ti < |trials| && Inputs(runs0) == trials[ti0..ti]
      requires RunsFacts(runs0, item.shapes, isLastQueueItem, PlanOf(protocol))
      requires RunsTraces(runs0, PlanOf(protocol))
      requires Reached(runs0) < |item.shapes|
      requires runs0 != [] ==> !runs0[|runs0| - 1].abortAfter
      modifies this, queue, protocol
      ensures Inputs(runs) == trials[ti0..ti + 1]
      ensures RunsFacts(runs, item.shapes, isLastQueueItem, PlanOf(old(protocol)))
      ensures RunsTraces(runs, PlanOf(old(protocol)))
      ensures runs != [] && ok == runs[|runs| - 1].ok && (runs[|runs| - 1].abortAfter ==> abortFlag)
      ensures Reached(runs) == if ok then Reached(runs0) + 1 else Reached(runs0)
      ensures Valid() && queue.State() == old(queue.State())
      ensures protocol == old(protocol) && win == old(win)
    {
      ghost var plan := PlanOf(protocol);
      var r := RunShape(item, Reached(runs0), isLastQueueItem, trials[ti], cameraFps, completedDuration);
      RunsSnoc(runs0, item.shapes, isLastQueueItem, plan, r, trials, ti0, ti);
      runs, ok := runs0 + [r], r.ok;
    }

    /** The inner loop of one turn (one queue item). A failed run with the
        abort flag set ends the turn; one without it is discarded, the worker
        waits at the pause gate and the same shape is retried; a successful
        run moves to the next shape. */
    method Turn(item: QueueItem, isLastQueueItem: bool, cmds: seq<Command>, ci0: nat,
                trials: seq<TrialInput>, ti0: nat, cameraFps: Option<real>, completedDuration: real)
      returns (allOk: bool, reached: nat, runs: seq<TrialRecord>, ci: nat, ti: nat, stalled: bool)
      requires Valid() && protocol != null && protocol.Valid()
      requires ci0 <= |cmds| && ti0 <= |trials|
      modifies this, queue, protocol
      ensures ci0 <= ci <= |cmds| && ti0 <= ti <= |trials|
      ensures Inputs(runs) == trials[ti0..ti]
      ensures RunsFacts(runs, item.shapes, isLastQueueItem, PlanOf(old(protocol)))
      ensures RunsTraces(runs, PlanOf(old(protocol)))
      ensures reached == Reached(runs)
      ensures stalled ==> !allOk && (ci == |cmds| || ti == |trials|)
      ensures !stalled ==> (allOk <==> reached == |item.shapes|)
      ensures !stalled && !allOk ==> abortFlag
      ensures old(abortFlag) ==> abortFlag
      ensures Valid() && queue.State() == old(queue.State())
      ensures protocol == old(protocol) && win == old(win)
    {
      ghost var plan := PlanOf(protocol);
      allOk, reached, runs, ci, ti, stalled := true, 0, [], ci0, ti0, false;
      while reached < |item.shapes|
        invariant ci0 <= ci <= |cmds| && ti0 <= ti <= |trials|
        invariant reached <= |item.shapes|
        invariant Inputs(runs) == trials[ti0..ti]
        invariant RunsFacts(runs, item.shapes, isLastQueueItem, plan) && reached == Reached(runs)
        invariant RunsTraces(runs, plan)
        invariant |runs| > 0 && runs[|runs| - 1].abortAfter ==> abortFlag
        invariant old(abortFlag) ==> abortFlag
        invariant Valid() && queue.State() == old(queue.State())
        invariant protocol == old(protocol) && win == old(win)
        decreases |trials| - ti
      {
        var gate;
        gate, ci := PauseGate(cmds, ci);
        if gate != GateOpen {
          allOk, stalled := false, gate == GateBlocked;
          break;
        }
        if ti == |trials| {
          allOk, stalled := false, true;
          break;
        }
        var ok;
        runs, ok := RecordRun(item, isLastQueueItem, runs, ti0, trials, ti, cameraFps, completedDuration);
        ti := ti + 1;
        if !ok {
          gate, ci := PauseGate(cmds, ci);
          if gate != GateOpen {
            allOk, stalled := false, gate == GateBlocked;
            break;
          }
          if protocol != null {
            protocol.abort := false;
          }
        } else {
          reached := reached + 1;
        }
      }
    }

    /** One pass of the queue loop of _run after its abort check: wait at the
        pause gate, take the current item, wait for confirmation, run the
        turn, and advance the queue and save progress when every shape of the
        turn succeeded. */
    method SessionStep(cmds: seq<Command>, ci0: nat, trials: seq<TrialInput>, ti0: nat,
                       cameraFps: Option<real>, completedDuration: real)
      returns (kind: StepKind, t: Option<TurnRecord>, ci: nat, ti: nat)
      requires Valid() && protocol != null && protocol.Valid()
      requires ci0 <= |cmds| && ti0 <= |trials|
      modifies this, queue, protocol
      ensures protocol == old(protocol) && win == old(win)
      ensures ci0 <= ci <= |cmds| && ti0 <= ti <= |trials|
      ensures Valid() && SameWork(queue.items, old(queue.items))
      ensures forall j :: queue.index <= j < |queue.items| ==> queue.items[j] == old(queue.items)[j]
      ensures old(abortFlag) ==> abortFlag
      ensures kind == Broke ==> t.None? && (abortFlag || queue.IsDone())
      ensures kind == Ran ==> t.Some?
      ensures kind == Blocked ==> ci == |cmds| || ti == |trials|
      ensures t.None? ==> ti == ti0 && queue.State() == old(queue.State())
      ensures t.Some? ==>
                && kind != Broke && (t.value.complete <==> kind == Ran)
                && t.value.queueIndex == old(queue.index) < |old(queue.items)|
                && t.value.item == old(queue.items)[old(queue.index)]
                && TurnRecordFacts(t.value, queue.items, PlanOf(old(protocol)))
                && Inputs(t.value.runs) == trials[ti0..ti]
                && queue.index == old(queue.index) + (if t.value.allOk then 1 else 0)
                && (t.value.complete && !t.value.allOk ==> abortFlag)
    {
      kind, t, ci, ti := Broke, None, ci0, ti0;
      ci := CheckPause(cmds, ci);
      if !pauseOpen {
        kind := Blocked;
        return;
      }
      if abortFlag {
        return;
      }
      var item := queue.Current();
      if item.None? {
        return;
      }
      ci := WaitConfirm(cmds, ci);
      if !confirmOpen {
        kind := Blocked;
        return;
      }
      if abortFlag {
        return;
      }
      state := Running;
      var turn;
      turn, ci, ti := RunTurn(item.value, cmds, ci, trials, ti, cameraFps, completedDuration);
      t := Some(turn);
      kind := if turn.complete then Ran else Blocked;
    }

    /** The turn of the current queue item, then, when every shape of it
        succeeded, queue.advance() and the progress snapshot saved. */
    method RunTurn(item: QueueItem, cmds: seq<Command>, ci0: nat, trials: seq<TrialInput>, ti0: nat,
                   cameraFps: Option<real>, completedDuration: real)
      returns (t: TurnRecord, ci: nat, ti: nat)
      requires Valid() && protocol != null && protocol.Valid()
      requires ci0 <= |cmds| && ti0 <= |trials|
      requires queue.index < |queue.items| && item == queue.items[queue.index]
      modifies this, queue, protocol
      ensures protocol == old(protocol) && win == old(win)
      ensures ci0 <= ci <= |cmds| && ti0 <= ti <= |trials|
      ensures Valid() && SameWork(queue.items, old(queue.items))
      ensures forall j :: queue.index <= j < |queue.items| ==> queue.items[j] == old(queue.items)[j]
      ensures old(abortFlag) ==> abortFlag
      ensures t.queueIndex == old(queue.index) && t.item == item
      ensures TurnRecordFacts(t, queue.items, PlanOf(old(protocol)))
      ensures Inputs(t.runs) == trials[ti0..ti]
      ensures queue.index == old(queue.index) + (if t.allOk then 1 else 0)
      ensures !t.allOk ==> queue.State() == old(queue.State())
      ensures t.complete && !t.allOk ==> abortFlag
      ensures !t.complete ==> ci == |cmds| || ti == |trials|
    {
      var index := queue.index;
      var isLastQueueItem := IsLast(index, |queue.items|);
      var allOk, reached, runs, stalled;
      allOk, reached, runs, ci, ti, stalled :=
        Turn(item, isLastQueueItem, cmds, ci0, trials, ti0, cameraFps, completedDuration);
      var saved: Option<Progress> := None;
      if allOk {
        var _ := queue.Advance();
        saved := Some(queue.ToProgress());
        assert SavedAfter(saved.value, queue.items, index);
      }
      t := TurnRecord(index, item, isLastQueueItem, runs, reached, allOk, !stalled, saved);
    }

    /** One pass of the queue loop with no abort pending: SessionStep, its
        turn, if any, appended to the turns so far. */
    method LoopTurn(cmds: seq<Command>, trials: seq<TrialInput>, cameraFps: Option<real>,
                    completedDuration: real, ghost start: nat, ghost items0: seq<QueueItem>,
                    ghost plan: TrialPlan, turns0: seq<TurnRecord>, ci0: nat, ti0: nat)
      returns (kind: StepKind, turns: seq<TurnRecord>, ci: nat, ti: nat)
      requires Valid() && protocol != null && protocol.Valid() && plan == PlanOf(protocol)
      requires !abortFlag && ci0 <= |cmds|
      requires LoopFacts(turns0, start, items0, plan, trials, ti0, queue.index, queue.items, false)
      requires turns0 != [] ==> turns0[|turns0| - 1].complete
      modifies this, queue, protocol
      ensures protocol == old(protocol) && win == old(win) && Valid()
      ensures ci <= |cmds|
      ensures LoopFacts(turns, start, items0, plan, trials, ti, queue.index, queue.items, abortFlag)
      ensures kind == Ran ==> turns != [] && turns[|turns| - 1].complete
      ensures kind == Ran ==> |queue.items| - queue.index <= old(|queue.items| - queue.index)
      ensures kind == Ran ==> abortFlag || |queue.items| - queue.index < old(|queue.items| - queue.index)
      ensures kind == Broke ==> turns == turns0 && (abortFlag || queue.IsDone())
      ensures kind == Blocked ==> ci == |cmds| || ti == |trials|
    {
      ghost var items1, index1 := queue.items, queue.index;
      var t;
      kind, t, ci, ti := SessionStep(cmds, ci0, trials, ti0, cameraFps, completedDuration);
      LoopStep(turns0, start, items0, plan, trials, ti0, ti, index1, items1,
               queue.index, queue.items, abortFlag, t);
      turns := if t.Some? then turns0 + [t.value] else turns0;
    }

    /** The queue loop of _run: until the queue is done, stop on abort, else
        take one pass. */
    method SessionLoop(cmds: seq<Command>, trials: seq<TrialInput>, cameraFps: Option<real>,
                       completedDuration: real)
      returns (exit: Exit, turns: seq<TurnRecord>, ci: nat, ti: nat)
      requires Valid() && protocol != null && protocol.Valid()
      modifies this, queue, protocol
      ensures protocol == old(protocol) && win == old(win)
      ensures ci <= |cmds|
      ensures LoopFacts(turns, old(queue.index), old(queue.items), PlanOf(old(protocol)),
                        trials, ti, queue.index, queue.items, abortFlag)
      ensures turns != [] && !turns[|turns| - 1].complete ==> exit == Stalled
      ensures exit == Finished ==> abortFlag || queue.IsDone()
      ensures exit == Stalled ==> ci == |cmds| || ti == |trials|
      ensures old(abortFlag) ==> abortFlag
      ensures Valid()
    {
      ghost var plan := PlanOf(protocol);
      ghost var start := queue.index;
      ghost var items0 := queue.items;
      exit, turns, ci, ti := Finished, [], 0, 0;
      while !queue.IsDone() && !abortFlag
        invariant protocol == old(protocol) && win == old(win)
        invariant ci <= |cmds|
        invariant LoopFacts(turns, start, items0, plan, trials, ti, queue.index, queue.items, abortFlag)
        invariant turns != [] ==> turns[|turns| - 1].complete
        invariant Valid()
        invariant old(abortFlag) ==> abortFlag
        decreases |queue.items| - queue.index, if abortFlag then 0 else 1
      {
        var kind;
        kind, turns, ci, ti := LoopTurn(cmds, trials, cameraFps, completedDuration, start, items0, plan,
                                        turns, ci, ti);
        if kind == Blocked {
          exit := Stalled;
          return;
        }
        if kind == Broke {
          break;
        }
      }
    }

    /** _run: set up the window and the protocol on the worker, run the queue
        loop, then choose the terminal state; ERROR when setup raises. The
        `finally` block drops the protocol and closes the window in every case
        in which the worker gets there. */
    method RunSession(fault: SetupFault, devMode: bool, failsAt: Option<nat>, elapsed: real,
                      timing: TimingSettings, cmds: seq<Command>, trials: seq<TrialInput>,
                      cameraFps: Option<real>, completedDuration: real)
      returns (exit: Exit, turns: seq<TurnRecord>, window: StimulusWindow?)
      requires Valid()
      modifies this, queue
      ensures Valid() && SameWork(queue.items, old(queue.items))
      ensures queue.index == old(queue.index) + Advanced(turns)
      ensures fault != NoFault ==> exit == Finished && turns == [] && state == Error
      ensures (window == null) <==> fault == WindowFails
      ensures window != null ==> fresh(window) && MinRate <= window.frameRate <= MaxRate
      ensures window != null ==>
                TurnsFacts(turns, old(queue.index), old(queue.items), PlanFor(timing, window.frameRate))
      ensures turns != [] && turns[|turns| - 1].complete && !turns[|turns| - 1].allOk ==> abortFlag
      ensures exit == Finished ==> protocol == null && win == null
      ensures exit == Finished && window != null ==> !window.isOpen && window.windowCloses == 1
      ensures exit == Finished && fault == NoFault ==> state == (if abortFlag then Aborted else Completed)
      ensures exit == Finished && fault == NoFault && !abortFlag ==> queue.IsDone()
      ensures exit == Stalled ==> fault == NoFault && protocol != null && win == window
      ensures turns != [] && !turns[|turns| - 1].complete ==> exit == Stalled
    {
      turns := [];
      window := null;
      if fault == WindowFails {
        state := Error;
        protocol := null;
        win := null;
        return Finished, turns, window;
      }
      window := new StimulusWindow(devMode, failsAt, elapsed);
      win := window;
      if fault == LaterStepFails {
        state := Error;
        protocol := null;
        window.Close();
        win := null;
        return Finished, turns, window;
      }
      protocol := new TrialProtocol(timing, window.frameRate);
      PlanOfProtocol(protocol, timing, window.frameRate);
      var ci, ti;
      exit, turns, ci, ti := SessionLoop(cmds, trials, cameraFps, completedDuration);
      if exit == Stalled {
        return;
      }
      if abortFlag {
        state := Aborted;
      } else {
        state := Completed;
      }
      protocol := null;
      window.Close();
      win := null;
    }
  }
}
