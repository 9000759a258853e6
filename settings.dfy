/** Experiment configuration (config/settings.py): the four settings records,
    the top-level configuration with its output-directory default, validation,
    the derived trial durations, and decoding from a parsed JSON document. */
module SettingsModel {
  import opened Wrappers

  datatype CameraSettings = CameraSettings(
    modelName: string, expectedSerial: string, width: int, height: int,
    pixelFormat: string, exposureTimeUs: real, gainDb: real,
    targetFrameRate: real, playbackFps: real, offsetX: int, offsetY: int,
    gamma: real)

  /** Trial timing; durations in seconds. */
  datatype TimingSettings = TimingSettings(
    trainingShapeDuration: real, trainingBlankDuration: real,
    trainingRepetitions: int, closeEyesCueDuration: real,
    measurementBeepDuration: real, measurementSilenceDuration: real,
    measurementRepetitions: int, openEyesCueDuration: real,
    trainingToMeasurementDelay: real)
  {
    function TrainingPhaseDuration(): real {
      trainingRepetitions as real * (trainingShapeDuration + trainingBlankDuration)
    }

    function MeasurementPhaseDuration(): real {
      measurementRepetitions as real * (measurementBeepDuration + measurementSilenceDuration)
    }

    function TotalTrialDuration(): real {
      TrainingPhaseDuration() + closeEyesCueDuration + MeasurementPhaseDuration() + openEyesCueDuration
    }
  }

  /** With non-negative counts and durations, each phase is non-negative and
      fits in the whole trial, which adds the two cue durations to them. */
  lemma TotalTrialDurationCoversPhases(t: TimingSettings)
    requires t.trainingRepetitions >= 0 && t.measurementRepetitions >= 0
    requires t.trainingShapeDuration >= 0.0 && t.trainingBlankDuration >= 0.0
    requires t.measurementBeepDuration >= 0.0 && t.measurementSilenceDuration >= 0.0
    requires t.closeEyesCueDuration >= 0.0 && t.openEyesCueDuration >= 0.0
    ensures 0.0 <= t.TrainingPhaseDuration() <= t.TotalTrialDuration()
    ensures 0.0 <= t.MeasurementPhaseDuration() <= t.TotalTrialDuration()
    ensures t.TotalTrialDuration() - t.TrainingPhaseDuration() - t.MeasurementPhaseDuration() ==
            t.closeEyesCueDuration + t.openEyesCueDuration
  {
    var training := t.TrainingPhaseDuration();
    var measurement := t.MeasurementPhaseDuration();
    NonNegativeProduct(t.trainingRepetitions, t.trainingShapeDuration + t.trainingBlankDuration);
    NonNegativeProduct(t.measurementRepetitions, t.measurementBeepDuration + t.measurementSilenceDuration);
    assert 0.0 <= training && 0.0 <= measurement;
    assert t.TotalTrialDuration() == training + t.closeEyesCueDuration + measurement + t.openEyesCueDuration;
  }

  lemma NonNegativeProduct(n: int, x: real)
    requires n >= 0 && x >= 0.0
    ensures n as real * x >= 0.0
  {
  }

  datatype AudioSettings = AudioSettings(
    sampleRate: int, beepFrequency: real, beepDuration: real, beepVolume: real)

  datatype StimulusSettings = StimulusSettings(
    colorHex: string, useImages: bool, imagePaths: seq<string>)

  datatype ExperimentConfig = ExperimentConfig(
    shapes: seq<string>, repetitions: int, shapeRepsPerSubsession: int,
    camera: CameraSettings, timing: TimingSettings, audio: AudioSettings,
    stimulus: StimulusSettings, devMode: bool, outputBaseDir: string,
    instructionAudioDir: string)

  const DefaultCamera := CameraSettings("acA1440-220um", "40034984", 128, 128, "Mono8",
                                        1000.0, 17.7, 500.0, 500.0, 0, 0, 1.0)
  const DefaultTiming := TimingSettings(1.5, 0.5, 5, 0.5, 1.5, 0.5, 5, 0.5, 0.0)
  const DefaultAudio := AudioSettings(44100, 440.0, 0.15, 0.5)
  const DefaultStimulus := StimulusSettings("#FFFFFF", false, [])
  const DefaultShapes: seq<string> := ["circle", "square", "triangle", "star"]
  const DefaultRepetitions := 5
  const DefaultShapeReps := 1
  const DefaultInstructionAudioDir := "external_instruction_recordings"

  /** The directory used when none is configured: `lsci_experiment_output`
      under the user's home directory (an input here). */
  function DefaultOutputDir(home: string): (d: string)
    ensures |d| > 0
  {
    home + "/lsci_experiment_output"
  }

  /** __post_init__: an empty output directory is replaced by the default. */
  function WithDefaultOutputDir(cfg: ExperimentConfig, home: string): (r: ExperimentConfig)
    ensures r.outputBaseDir != ""
    ensures cfg.outputBaseDir != "" ==> r == cfg
    ensures cfg.outputBaseDir == "" ==> r == cfg.(outputBaseDir := DefaultOutputDir(home))
  {
    if cfg.outputBaseDir == "" then cfg.(outputBaseDir := DefaultOutputDir(home)) else cfg
  }

  /** A configuration built with every default, as `ExperimentConfig()` does. */
  function DefaultConfig(home: string): ExperimentConfig {
    WithDefaultOutputDir(ExperimentConfig(DefaultShapes, DefaultRepetitions, DefaultShapeReps,
      DefaultCamera, DefaultTiming, DefaultAudio, DefaultStimulus, false, "",
      DefaultInstructionAudioDir), home)
  }

  // ---------------------------------------------------------------- validate

  /** The nine validation failures, each with the message validate() reports. */
  datatype ValidationError =
    | NoImages | NoShapes | BadRepetitions | BadShapeReps | RoiTooSmall
    | BadExposure | BadFrameRate | BadTrainingReps | BadMeasurementReps
  {
    function Message(): string {
      match this
      case NoImages => "At least one image must be added in image mode."
      case NoShapes => "At least one shape must be selected."
      case BadRepetitions => "Repetitions must be >= 1."
      case BadShapeReps => "Shape reps per sub-session must be >= 1."
      case RoiTooSmall => "Camera ROI must be at least 16x16."
      case BadExposure => "Exposure time must be positive."
      case BadFrameRate => "Frame rate must be positive."
      case BadTrainingReps => "Training repetitions must be >= 1."
      case BadMeasurementReps => "Measurement repetitions must be >= 1."
    }
  }

  /** Different failures report different messages. */
  lemma MessageInjective(e1: ValidationError, e2: ValidationError)
    ensures e1.Message() == e2.Message() ==> e1 == e2
  {
    match e1
    case NoImages =>
    case NoShapes =>
    case BadRepetitions =>
    case BadShapeReps =>
    case RoiTooSmall =>
    case BadExposure =>
    case BadFrameRate =>
    case BadTrainingReps =>
    case BadMeasurementReps =>
  }

  /** Whether the configuration breaks the rule whose failure is e. */
  predicate Violates(cfg: ExperimentConfig, e: ValidationError) {
    match e
    case NoImages => cfg.stimulus.useImages && |cfg.stimulus.imagePaths| == 0
    case NoShapes => !cfg.stimulus.useImages && |cfg.shapes| == 0
    case BadRepetitions => cfg.repetitions < 1
    case BadShapeReps => cfg.shapeRepsPerSubsession < 1
    case RoiTooSmall => cfg.camera.width < 16 || cfg.camera.height < 16
    case BadExposure => cfg.camera.exposureTimeUs <= 0.0
    case BadFrameRate => cfg.camera.targetFrameRate <= 0.0
    case BadTrainingReps => cfg.timing.trainingRepetitions < 1
    case BadMeasurementReps => cfg.timing.measurementRepetitions < 1
  }

  /** The order in which validate() checks the rules. */
  const CheckOrder: seq<ValidationError> :=
    [NoImages, NoShapes, BadRepetitions, BadShapeReps, RoiTooSmall,
     BadExposure, BadFrameRate, BadTrainingReps, BadMeasurementReps]

  /** The failures found by the first k checks, in check order. */
  function ErrorsUpTo(cfg: ExperimentConfig, k: nat): seq<ValidationError>
    requires k <= |CheckOrder|
    decreases k
  {
    if k == 0 then []
    else
      ErrorsUpTo(cfg, k - 1) +
      (if Violates(cfg, CheckOrder[k - 1]) then [CheckOrder[k - 1]] else [])
  }

  /** The failures validate() reports. */
  function ExpectedErrors(cfg: ExperimentConfig): seq<ValidationError> {
    ErrorsUpTo(cfg, |CheckOrder|)
  }

  /** The message list of a list of failures. */
  function Messages(es: seq<ValidationError>): (ms: seq<string>)
    ensures |ms| == |es| && forall k :: 0 <= k < |es| ==> ms[k] == es[k].Message()
  {
    seq(|es|, k requires 0 <= k < |es| => es[k].Message())
  }

  /** Different failures report different messages, so the message list names
      the failures one to one. */
  lemma MessagesDetermineErrors(es1: seq<ValidationError>, es2: seq<ValidationError>)
    requires Messages(es1) == Messages(es2)
    ensures es1 == es2
  {
    assert |es1| == |es2|;
    forall k | 0 <= k < |es1|
      ensures es1[k] == es2[k]
    {
      assert Messages(es1)[k] == Messages(es2)[k];
      MessageInjective(es1[k], es2[k]);
    }
  }

  /** validate(): append each failing rule's failure to the error list (the
      strings the method returns are their messages). */
  method Validate(cfg: ExperimentConfig) returns (errors: seq<ValidationError>)
    ensures errors == ExpectedErrors(cfg)
  {
    errors := [];
    if cfg.stimulus.useImages {
      if |cfg.stimulus.imagePaths| == 0 {
        errors := errors + [NoImages];
      }
    } else if |cfg.shapes| == 0 {
      errors := errors + [NoShapes];
    }
    assert errors == ErrorsUpTo(cfg, 2);
    if cfg.repetitions < 1 {
      errors := errors + [BadRepetitions];
    }
    assert errors == ErrorsUpTo(cfg, 3);
    if cfg.shapeRepsPerSubsession < 1 {
      errors := errors + [BadShapeReps];
    }
    assert errors == ErrorsUpTo(cfg, 4);
    if cfg.camera.width < 16 || cfg.camera.height < 16 {
      errors := errors + [RoiTooSmall];
    }
    assert errors == ErrorsUpTo(cfg, 5);
    if cfg.camera.exposureTimeUs <= 0.0 {
      errors := errors + [BadExposure];
    }
    assert errors == ErrorsUpTo(cfg, 6);
    if cfg.camera.targetFrameRate <= 0.0 {
      errors := errors + [BadFrameRate];
    }
    assert errors == ErrorsUpTo(cfg, 7);
    if cfg.timing.trainingRepetitions < 1 {
      errors := errors + [BadTrainingReps];
    }
    assert errors == ErrorsUpTo(cfg, 8);
    if cfg.timing.measurementRepetitions < 1 {
      errors := errors + [BadMeasurementReps];
    }
  }

  /** A failure is among the first k reports exactly when it is one of the
      first k checks and the configuration breaks its rule. */
  lemma {:induction false} ErrorsUpToMember(cfg: ExperimentConfig, k: nat, e: ValidationError)
    requires k <= |CheckOrder|
    ensures e in ErrorsUpTo(cfg, k) <==> e in CheckOrder[..k] && Violates(cfg, e)
    decreases k
  {
    if k > 0 {
      ErrorsUpToMember(cfg, k - 1, e);
      assert CheckOrder[..k] == CheckOrder[..k - 1] + [CheckOrder[k - 1]];
    }
  }

  /** Each failure is reported exactly when the configuration breaks its rule. */
  lemma ValidateReportsEachRule(cfg: ExperimentConfig, e: ValidationError)
    ensures e in ExpectedErrors(cfg) <==> Violates(cfg, e)
  {
    ErrorsUpToMember(cfg, |CheckOrder|, e);
    assert CheckOrder[..|CheckOrder|] == CheckOrder;
  }

  /** The failures are reported in check order, each at most once. */
  lemma {:induction false} ErrorsUpToOrdered(cfg: ExperimentConfig, k: nat)
    requires k <= |CheckOrder|
    ensures forall i, j :: 0 <= i < j < |ErrorsUpTo(cfg, k)| ==>
              Rank(ErrorsUpTo(cfg, k)[i]) < Rank(ErrorsUpTo(cfg, k)[j])
    ensures forall i :: 0 <= i < |ErrorsUpTo(cfg, k)| ==> Rank(ErrorsUpTo(cfg, k)[i]) < k
    decreases k
  {
    if k > 0 {
      ErrorsUpToOrdered(cfg, k - 1);
      assert Rank(CheckOrder[k - 1]) == k - 1;
    }
  }

  /** The position of a failure's rule in CheckOrder. */
  function Rank(e: ValidationError): (r: nat)
    ensures r < |CheckOrder| && CheckOrder[r] == e
  {
    match e
    case NoImages => 0
    case NoShapes => 1
    case BadRepetitions => 2
    case BadShapeReps => 3
    case RoiTooSmall => 4
    case BadExposure => 5
    case BadFrameRate => 6
    case BadTrainingReps => 7
    case BadMeasurementReps => 8
  }

  /** Image mode never reports the missing-shapes error, whatever the shape list. */
  lemma ImageModeIgnoresShapes(cfg: ExperimentConfig)
    requires cfg.stimulus.useImages
    ensures NoShapes !in ExpectedErrors(cfg)
  {
    ValidateReportsEachRule(cfg, NoShapes);
  }

  /** The configuration is valid (no errors) exactly when no rule is broken. */
  lemma ValidateEmptyIff(cfg: ExperimentConfig)
    ensures ExpectedErrors(cfg) == [] <==>
      && (if cfg.stimulus.useImages then |cfg.stimulus.imagePaths| > 0 else |cfg.shapes| > 0)
      && cfg.repetitions >= 1 && cfg.shapeRepsPerSubsession >= 1
      && cfg.camera.width >= 16 && cfg.camera.height >= 16
      && cfg.camera.exposureTimeUs > 0.0 && cfg.camera.targetFrameRate > 0.0
      && cfg.timing.trainingRepetitions >= 1 && cfg.timing.measurementRepetitions >= 1
  {
    var errs := ExpectedErrors(cfg);
    if errs != [] {
      ValidateReportsEachRule(cfg, errs[0]);
    }
    ValidateReportsEachRule(cfg, NoImages);
    ValidateReportsEachRule(cfg, NoShapes);
    ValidateReportsEachRule(cfg, BadRepetitions);
    ValidateReportsEachRule(cfg, BadShapeReps);
    ValidateReportsEachRule(cfg, RoiTooSmall);
    ValidateReportsEachRule(cfg, BadExposure);
    ValidateReportsEachRule(cfg, BadFrameRate);
    ValidateReportsEachRule(cfg, BadTrainingReps);
    ValidateReportsEachRule(cfg, BadMeasurementReps);
  }

  /** The default configuration is valid. */
  lemma DefaultConfigIsValid(home: string)
    ensures ExpectedErrors(DefaultConfig(home)) == []
  {
    ValidateEmptyIff(DefaultConfig(home));
  }

  // ------------------------------------------------ JSON document and decoding

  /** A parsed JSON value (json.load's output). */
  datatype Json =
    | JNull
    | JBool(b: bool)
    | JInt(i: int)
    | JReal(r: real)
    | JStr(s: string)
    | JArr(elems: seq<Json>)
    | JObj(fields: map<string, Json>)

  /** `o.get(key, default)` for each field type; a present value of the wrong type is None. */
  function GetStr(o: map<string, Json>, key: string, dflt: string): Option<string> {
    if key !in o then Some(dflt)
    else if o[key].JStr? then Some(o[key].s) else None
  }

  function GetInt(o: map<string, Json>, key: string, dflt: int): Option<int> {
    if key !in o then Some(dflt)
    else if o[key].JInt? then Some(o[key].i) else None
  }

  /** A JSON integer is accepted for a float field. */
  function GetReal(o: map<string, Json>, key: string, dflt: real): Option<real> {
    if key !in o then Some(dflt)
    else match o[key]
      case JReal(r) => Some(r)
      case JInt(i) => Some(i as real)
      case _ => None
  }

  function GetBool(o: map<string, Json>, key: string, dflt: bool): Option<bool> {
    if key !in o then Some(dflt)
    else if o[key].JBool? then Some(o[key].b) else None
  }

  predicate AllStrings(js: seq<Json>) {
    forall k :: 0 <= k < |js| ==> js[k].JStr?
  }

  function GetStrList(o: map<string, Json>, key: string, dflt: seq<string>): Option<seq<string>> {
    if key !in o then Some(dflt)
    else if o[key].JArr? && AllStrings(o[key].elems) then
      Some(seq(|o[key].elems|, k requires 0 <= k < |o[key].elems| => o[key].elems[k].s))
    else None
  }

  /** `data.get(key, {})`: a sub-object, empty when the key is missing. */
  function Section(o: map<string, Json>, key: string): Json {
    if key in o then o[key] else JObj(map[])
  }

  const CameraKeys := {"model_name", "expected_serial", "width", "height", "pixel_format",
                       "exposure_time_us", "gain_db", "target_frame_rate", "playback_fps",
                       "offset_x", "offset_y", "gamma"}
  const TimingKeys := {"training_shape_duration", "training_blank_duration",
                       "training_repetitions", "close_eyes_cue_duration",
                       "measurement_beep_duration", "measurement_silence_duration",
                       "measurement_repetitions", "open_eyes_cue_duration",
                       "training_to_measurement_delay"}
  const AudioKeys := {"sample_rate", "beep_frequency", "beep_duration", "beep_volume"}
  const StimulusKeys := {"color_hex", "use_images", "image_paths"}
  const TopKeys := {"shapes", "repetitions", "shape_reps_per_subsession", "camera", "timing",
                    "audio", "stimulus", "dev_mode", "output_base_dir", "instruction_audio_dir"}

  /** CameraSettings(**known fields): a field missing from the object keeps its default. */
  function CameraFromJson(j: Json): Option<CameraSettings> {
    if !j.JObj? then None
    else
      var o := j.fields;
      var d := DefaultCamera;
      var modelName :- GetStr(o, "model_name", d.modelName);
      var serial :- GetStr(o, "expected_serial", d.expectedSerial);
      var width :- GetInt(o, "width", d.width);
      var height :- GetInt(o, "height", d.height);
      var pixelFormat :- GetStr(o, "pixel_format", d.pixelFormat);
      var exposure :- GetReal(o, "exposure_time_us", d.exposureTimeUs);
      var gain :- GetReal(o, "gain_db", d.gainDb);
      var target :- GetReal(o, "target_frame_rate", d.targetFrameRate);
      var playback :- GetReal(o, "playback_fps", d.playbackFps);
      var offsetX :- GetInt(o, "offset_x", d.offsetX);
      var offsetY :- GetInt(o, "offset_y", d.offsetY);
      var gamma :- GetReal(o, "gamma", d.gamma);
      Some(CameraSettings(modelName, serial, width, height, pixelFormat, exposure, gain,
                          target, playback, offsetX, offsetY, gamma))
  }

  function TimingFromJson(j: Json): Option<TimingSettings> {
    if !j.JObj? then None
    else
      var o := j.fields;
      var d := DefaultTiming;
      var shape :- GetReal(o, "training_shape_duration", d.trainingShapeDuration);
      var blank :- GetReal(o, "training_blank_duration", d.trainingBlankDuration);
      var trainingReps :- GetInt(o, "training_repetitions", d.trainingRepetitions);
      var closeEyes :- GetReal(o, "close_eyes_cue_duration", d.closeEyesCueDuration);
      var beep :- GetReal(o, "measurement_beep_duration", d.measurementBeepDuration);
      var silence :- GetReal(o, "measurement_silence_duration", d.measurementSilenceDuration);
      var measurementReps :- GetInt(o, "measurement_repetitions", d.measurementRepetitions);
      var openEyes :- GetReal(o, "open_eyes_cue_duration", d.openEyesCueDuration);
      var delay :- GetReal(o, "training_to_measurement_delay", d.trainingToMeasurementDelay);
      Some(TimingSettings(shape, blank, trainingReps, closeEyes, beep, silence,
                          measurementReps, openEyes, delay))
  }

  function AudioFromJson(j: Json): Option<AudioSettings> {
    if !j.JObj? then None
    else
      var o := j.fields;
      var d := DefaultAudio;
      var sampleRate :- GetInt(o, "sample_rate", d.sampleRate);
      var frequency :- GetReal(o, "beep_frequency", d.beepFrequency);
      var duration :- GetReal(o, "beep_duration", d.beepDuration);
      var volume :- GetReal(o, "beep_volume", d.beepVolume);
      Some(AudioSettings(sampleRate, frequency, duration, volume))
  }

  function StimulusFromJson(j: Json): Option<StimulusSettings> {
    if !j.JObj? then None
    else
      var o := j.fields;
      var d := DefaultStimulus;
      var color :- GetStr(o, "color_hex", d.colorHex);
      var useImages :- GetBool(o, "use_images", d.useImages);
      var paths :- GetStrList(o, "image_paths", d.imagePaths);
      Some(StimulusSettings(color, useImages, paths))
  }

  /** The top-level fields of _from_dict, given the decoded sections; the
      result goes through __post_init__. */
  function Assemble(o: map<string, Json>, cam: CameraSettings, timing: TimingSettings,
                    audio: AudioSettings, stimulus: StimulusSettings, home: string)
    : (r: Option<ExperimentConfig>)
    ensures r.Some? ==> r.value.outputBaseDir != ""
  {
    var shapes :- GetStrList(o, "shapes", DefaultShapes);
    var reps :- GetInt(o, "repetitions", DefaultRepetitions);
    var shapeReps :- GetInt(o, "shape_reps_per_subsession", DefaultShapeReps);
    var devMode :- GetBool(o, "dev_mode", false);
    var outDir :- GetStr(o, "output_base_dir", "");
    var audioDir :- GetStr(o, "instruction_audio_dir", DefaultInstructionAudioDir);
    Some(WithDefaultOutputDir(ExperimentConfig(shapes, reps, shapeReps, cam, timing, audio,
                                               stimulus, devMode, outDir, audioDir), home))
  }

  /** _from_dict: decode each section from its known keys, fill missing
      top-level keys with their defaults, then apply __post_init__. None when
      the document or a section is not an object, or a value has the wrong type. */
  function FromDict(data: Json, home: string): (r: Option<ExperimentConfig>)
    ensures r.Some? ==> r.value.outputBaseDir != ""
  {
    if !data.JObj? then None
    else
      var o := data.fields;
      var cam :- CameraFromJson(Section(o, "camera"));
      var timing :- TimingFromJson(Section(o, "timing"));
      var audio :- AudioFromJson(Section(o, "audio"));
      var stimulus :- StimulusFromJson(Section(o, "stimulus"));
      Assemble(o, cam, timing, audio, stimulus, home)
  }

  /** to_dict (asdict): every field under its Python name. */
  function CameraToJson(c: CameraSettings): Json {
    JObj(map["model_name" := JStr(c.modelName), "expected_serial" := JStr(c.expectedSerial),
             "width" := JInt(c.width), "height" := JInt(c.height),
             "pixel_format" := JStr(c.pixelFormat), "exposure_time_us" := JReal(c.exposureTimeUs),
             "gain_db" := JReal(c.gainDb), "target_frame_rate" := JReal(c.targetFrameRate),
             "playback_fps" := JReal(c.playbackFps), "offset_x" := JInt(c.offsetX),
             "offset_y" := JInt(c.offsetY), "gamma" := JReal(c.gamma)])
  }

  function TimingToJson(t: TimingSettings): Json {
    JObj(map["training_shape_duration" := JReal(t.trainingShapeDuration),
             "training_blank_duration" := JReal(t.trainingBlankDuration),
             "training_repetitions" := JInt(t.trainingRepetitions),
             "close_eyes_cue_duration" := JReal(t.closeEyesCueDuration),
             "measurement_beep_duration" := JReal(t.measurementBeepDuration),
             "measurement_silence_duration" := JReal(t.measurementSilenceDuration),
             "measurement_repetitions" := JInt(t.measurementRepetitions),
             "open_eyes_cue_duration" := JReal(t.openEyesCueDuration),
             "training_to_measurement_delay" := JReal(t.trainingToMeasurementDelay)])
  }

  function AudioToJson(a: AudioSettings): Json {
    JObj(map["sample_rate" := JInt(a.sampleRate), "beep_frequency" := JReal(a.beepFrequency),
             "beep_duration" := JReal(a.beepDuration), "beep_volume" := JReal(a.beepVolume)])
  }

  function StrList(ss: seq<string>): (j: Json)
    ensures j.JArr? && |j.elems| == |ss| && AllStrings(j.elems)
    ensures forall k :: 0 <= k < |ss| ==> j.elems[k] == JStr(ss[k])
  {
    JArr(seq(|ss|, k requires 0 <= k < |ss| => JStr(ss[k])))
  }

  function StimulusToJson(s: StimulusSettings): Json {
    JObj(map["color_hex" := JStr(s.colorHex), "use_images" := JBool(s.useImages),
             "image_paths" := StrList(s.imagePaths)])
  }

  function ToDict(cfg: ExperimentConfig): Json {
    JObj(map["shapes" := StrList(cfg.shapes), "repetitions" := JInt(cfg.repetitions),
             "shape_reps_per_subsession" := JInt(cfg.shapeRepsPerSubsession),
             "camera" := CameraToJson(cfg.camera), "timing" := TimingToJson(cfg.timing),
             "audio" := AudioToJson(cfg.audio), "stimulus" := StimulusToJson(cfg.stimulus),
             "dev_mode" := JBool(cfg.devMode), "output_base_dir" := JStr(cfg.outputBaseDir),
             "instruction_audio_dir" := JStr(cfg.instructionAudioDir)])
  }

  lemma StrListRoundTrip(o: map<string, Json>, key: string, ss: seq<string>, dflt: seq<string>)
    requires key in o && o[key] == StrList(ss)
    ensures GetStrList(o, key, dflt) == Some(ss)
  {
    var j := StrList(ss);
    var got := seq(|j.elems|, k requires 0 <= k < |j.elems| => j.elems[k].s);
    assert got == ss;
  }

  lemma CameraRoundTrip(c: CameraSettings)
    ensures CameraFromJson(CameraToJson(c)) == Some(c)
  {
  }

  lemma TimingRoundTrip(t: TimingSettings)
    ensures TimingFromJson(TimingToJson(t)) == Some(t)
  {
  }

  lemma AudioRoundTrip(a: AudioSettings)
    ensures AudioFromJson(AudioToJson(a)) == Some(a)
  {
  }

  lemma StimulusRoundTrip(s: StimulusSettings)
    ensures StimulusFromJson(StimulusToJson(s)) == Some(s)
  {
    StrListRoundTrip(StimulusToJson(s).fields, "image_paths", s.imagePaths, DefaultStimulus.imagePaths);
  }

  lemma AssembleRoundTrip(cfg: ExperimentConfig, home: string)
    requires cfg.outputBaseDir != ""
    ensures Assemble(ToDict(cfg).fields, cfg.camera, cfg.timing, cfg.audio, cfg.stimulus, home) == Some(cfg)
  {
    var o := ToDict(cfg).fields;
    StrListRoundTrip(o, "shapes", cfg.shapes, DefaultShapes);
    assert o["repetitions"] == JInt(cfg.repetitions);
    assert o["shape_reps_per_subsession"] == JInt(cfg.shapeRepsPerSubsession);
    assert o["dev_mode"] == JBool(cfg.devMode);
    assert o["output_base_dir"] == JStr(cfg.outputBaseDir);
    assert o["instruction_audio_dir"] == JStr(cfg.instructionAudioDir);
  }

  /** FromDict in terms of its decoded sections. */
  lemma FromDictBySections(o: map<string, Json>, home: string, cam: CameraSettings,
                           timing: TimingSettings, audio: AudioSettings, stimulus: StimulusSettings)
    requires CameraFromJson(Section(o, "camera")) == Some(cam)
    requires TimingFromJson(Section(o, "timing")) == Some(timing)
    requires AudioFromJson(Section(o, "audio")) == Some(audio)
    requires StimulusFromJson(Section(o, "stimulus")) == Some(stimulus)
    ensures FromDict(JObj(o), home) == Assemble(o, cam, timing, audio, stimulus, home)
  {
  }

  lemma SectionsOfToDict(cfg: ExperimentConfig)
    ensures Section(ToDict(cfg).fields, "camera") == CameraToJson(cfg.camera)
    ensures Section(ToDict(cfg).fields, "timing") == TimingToJson(cfg.timing)
    ensures Section(ToDict(cfg).fields, "audio") == AudioToJson(cfg.audio)
    ensures Section(ToDict(cfg).fields, "stimulus") == StimulusToJson(cfg.stimulus)
  {
  }

  /** Saving and loading again gives back the same configuration (once
      __post_init__ has filled the output directory). */
  lemma FromDictToDict(cfg: ExperimentConfig, home: string)
    requires cfg.outputBaseDir != ""
    ensures FromDict(ToDict(cfg), home) == Some(cfg)
  {
    SectionsOfToDict(cfg);
    CameraRoundTrip(cfg.camera);
    TimingRoundTrip(cfg.timing);
    AudioRoundTrip(cfg.audio);
    StimulusRoundTrip(cfg.stimulus);
    FromDictBySections(ToDict(cfg).fields, home, cfg.camera, cfg.timing, cfg.audio, cfg.stimulus);
    AssembleRoundTrip(cfg, home);
  }

  /** An empty document decodes to the all-defaults configuration. */
  lemma FromDictEmptyIsDefault(home: string)
    ensures FromDict(JObj(map[]), home) == Some(DefaultConfig(home))
  {
  }

  /** A key that is not a CameraSettings field is ignored. */
  lemma CameraIgnoresUnknownKey(o: map<string, Json>, k: string, v: Json)
    requires k !in CameraKeys
    ensures CameraFromJson(JObj(o[k := v])) == CameraFromJson(JObj(o))
  {
  }

  lemma TimingIgnoresUnknownKey(o: map<string, Json>, k: string, v: Json)
    requires k !in TimingKeys
    ensures TimingFromJson(JObj(o[k := v])) == TimingFromJson(JObj(o))
  {
  }

  lemma AudioIgnoresUnknownKey(o: map<string, Json>, k: string, v: Json)
    requires k !in AudioKeys
    ensures AudioFromJson(JObj(o[k := v])) == AudioFromJson(JObj(o))
  {
  }

  lemma StimulusIgnoresUnknownKey(o: map<string, Json>, k: string, v: Json)
    requires k !in StimulusKeys
    ensures StimulusFromJson(JObj(o[k := v])) == StimulusFromJson(JObj(o))
  {
  }

  lemma AssembleIgnoresUnknownKey(o: map<string, Json>, k: string, v: Json, cam: CameraSettings,
                                  timing: TimingSettings, audio: AudioSettings,
                                  stimulus: StimulusSettings, home: string)
    requires k !in TopKeys
    ensures Assemble(o[k := v], cam, timing, audio, stimulus, home) ==
            Assemble(o, cam, timing, audio, stimulus, home)
  {
  }

  lemma SectionIgnoresUnknownKey(o: map<string, Json>, k: string, v: Json)
    requires k !in TopKeys
    ensures Section(o[k := v], "camera") == Section(o, "camera")
    ensures Section(o[k := v], "timing") == Section(o, "timing")
    ensures Section(o[k := v], "audio") == Section(o, "audio")
    ensures Section(o[k := v], "stimulus") == Section(o, "stimulus")
  {
  }

  /** A top-level key that is not an ExperimentConfig field is ignored. */
  lemma FromDictIgnoresUnknownKey(o: map<string, Json>, k: string, v: Json, home: string)
    requires k !in TopKeys
    ensures FromDict(JObj(o[k := v]), home) == FromDict(JObj(o), home)
  {
    SectionIgnoresUnknownKey(o, k, v);
    var cam := CameraFromJson(Section(o, "camera"));
    var timing := TimingFromJson(Section(o, "timing"));
    var audio := AudioFromJson(Section(o, "audio"));
    var stimulus := StimulusFromJson(Section(o, "stimulus"));
    if cam.Some? && timing.Some? && audio.Some? && stimulus.Some? {
      FromDictBySections(o, home, cam.value, timing.value, audio.value, stimulus.value);
      FromDictBySections(o[k := v], home, cam.value, timing.value, audio.value, stimulus.value);
      AssembleIgnoresUnknownKey(o, k, v, cam.value, timing.value, audio.value, stimulus.value, home);
    }
  }
}
