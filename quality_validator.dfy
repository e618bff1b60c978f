/** The audio quality validator: threshold rules over one decoded waveform,
    and a fold of those verdicts over a dataset. */
module Quality {
  import opened Wrappers
  import opened Numeric
  import opened Dataset

  /** A decoder always reports a positive native sample rate. */
  type SampleRate = r: int | r > 0 witness 1

  /** A file decoded at its own rate: mono samples and that rate. */
  datatype Waveform = Waveform(samples: seq<real>, sampleRate: SampleRate)

  /** What the library reports for one file. `decoded` is `None` when loading
      raised. The dynamic range (20·log10 of peak over mean magnitude) and the
      mean and deviation of the frame-wise RMS are computed by numpy and
      librosa and are given here as numbers. */
  datatype QualityInput = QualityInput(
    decoded: Option<Waveform>,
    dynamicRange: real,
    rmsMean: real,
    rmsStd: real)

  /** The thresholds of a validator, fixed when it is constructed.
      `minBitDepth` is stored but no rule reads it. */
  datatype Validator = Validator(
    minDuration: real,
    minSampleRate: int,
    minBitDepth: int,
    minDynamicRange: real,
    maxClippingRatio: real)

  const DefaultValidator := Validator(60.0, 44100, 16, 10.0, 0.01)

  /** Samples at or above this magnitude count as clipped. */
  const ClipLevel: real := 0.99

  /** The issues a check can report, with the values their messages print;
      the analysis error carries no payload, although its message prints the
      text of the exception that was raised. */
  datatype Issue =
    | DurationTooShort(duration: real, minDuration: real)
    | SampleRateTooLow(rate: int, minRate: int)
    | ExcessiveClipping(ratio: real)
    | LowDynamicRange(decibels: real)
    | AnalysisError

  /** The triple `(passed, issues, metrics)` one check returns. */
  datatype Report = Report(passed: bool, issues: seq<Issue>, metrics: map<MetricKey, Float>)

  /** The keys of the metrics dictionary (`"duration"`, `"sample_rate"`,
      `"clipping_ratio"`, `"dynamic_range"`, `"rms_mean"`, `"rms_std"`). */
  datatype MetricKey = DurationKey | SampleRateKey | ClippingRatioKey | DynamicRangeKey | RmsMeanKey | RmsStdKey

  const MetricKeys: set<MetricKey> :=
    {DurationKey, SampleRateKey, ClippingRatioKey, DynamicRangeKey, RmsMeanKey, RmsStdKey}

  /** Keys recorded before the dynamic-range step raises on an empty waveform. */
  const EarlyMetricKeys: set<MetricKey> := {DurationKey, SampleRateKey, ClippingRatioKey}

  /** Duration in seconds: sample count over sample rate. */
  function Duration(w: Waveform): real
  {
    (|w.samples| as real) / (w.sampleRate as real)
  }

  /** The duration is never negative, and times the rate gives back the sample count. */
  lemma DurationOfSamples(w: Waveform)
    ensures Duration(w) >= 0.0
    ensures Duration(w) * (w.sampleRate as real) == |w.samples| as real
  {
  }

  /** Number of samples whose magnitude reaches the clip level. */
  function ClippedCount(ys: seq<real>): (n: nat)
    ensures n <= |ys|
  {
    if ys == [] then 0
    else ClippedCount(ys[..|ys| - 1]) + (if Abs(ys[|ys| - 1]) >= ClipLevel then 1 else 0)
  }

  /** Clipped samples over all samples; NaN (0 / 0 on numpy integers) when there are none. */
  function ClippingRatio(ys: seq<real>): Float
  {
    if ys == [] then NaN else Finite((ClippedCount(ys) as real) / (|ys| as real))
  }

  /** The ratio is undefined exactly for an empty waveform, and otherwise a fraction. */
  lemma ClippingRatioBounds(ys: seq<real>)
    ensures ClippingRatio(ys).NaN? <==> ys == []
    ensures ClippingRatio(ys).Finite? ==> 0.0 <= ClippingRatio(ys).value <= 1.0
  {
    if ys != [] {
      var c, n := ClippedCount(ys) as real, |ys| as real;
      assert c / n <= n / n;
    }
  }

  lemma {:induction false} AllClippedCount(ys: seq<real>)
    requires forall i :: 0 <= i < |ys| ==> Abs(ys[i]) >= ClipLevel
    ensures ClippedCount(ys) == |ys|
  {
    if ys != [] {
      AllClippedCount(ys[..|ys| - 1]);
    }
  }

  /** A waveform whose every sample is at full scale has clipping ratio exactly 1. */
  lemma FullScaleClipping(ys: seq<real>)
    requires ys != []
    requires forall i :: 0 <= i < |ys| ==> Abs(ys[i]) == 1.0
    ensures ClippingRatio(ys) == Finite(1.0)
  {
    AllClippedCount(ys);
    var n := |ys| as real;
    assert (ClippedCount(ys) as real) / n == n / n == 1.0;
  }

  /** The position of each kind of issue in the order the checks run. */
  function Rank(x: Issue): nat
  {
    match x
    case DurationTooShort(_, _) => 0
    case SampleRateTooLow(_, _) => 1
    case ExcessiveClipping(_) => 2
    case LowDynamicRange(_) => 3
    case AnalysisError => 4
  }

  /** Issues listed in check order, at most one of each kind. */
  predicate InCheckOrder(issues: seq<Issue>)
  {
    forall i, j :: 0 <= i < j < |issues| ==> Rank(issues[i]) < Rank(issues[j])
  }

  /** The rule that reports `x` fired on this input, and `x` carries the measured values. */
  predicate Justified(v: Validator, inp: QualityInput, x: Issue)
  {
    match x
    case DurationTooShort(d, m) =>
      inp.decoded.Some? && d == Duration(inp.decoded.value) && m == v.minDuration && d < m
    case SampleRateTooLow(r, m) =>
      inp.decoded.Some? && r == inp.decoded.value.sampleRate && m == v.minSampleRate && r < m
    case ExcessiveClipping(c) =>
      inp.decoded.Some? && ClippingRatio(inp.decoded.value.samples) == Finite(c) && c > v.maxClippingRatio
    case LowDynamicRange(dr) =>
      inp.decoded.Some? && |inp.decoded.value.samples| > 0 && dr == inp.dynamicRange && dr < v.minDynamicRange
    case AnalysisError =>
      inp.decoded.None? || |inp.decoded.value.samples| == 0
  }

  /** Every rule that fires on this input is reported. */
  predicate Complete(v: Validator, inp: QualityInput, issues: seq<Issue>)
  {
    match inp.decoded
    case None => AnalysisError in issues
    case Some(w) =>
      var ratio := ClippingRatio(w.samples);
      && (Duration(w) < v.minDuration ==> DurationTooShort(Duration(w), v.minDuration) in issues)
      && (w.sampleRate < v.minSampleRate ==> SampleRateTooLow(w.sampleRate, v.minSampleRate) in issues)
      && (ratio.Finite? && ratio.value > v.maxClippingRatio ==> ExcessiveClipping(ratio.value) in issues)
      && (|w.samples| > 0 && inp.dynamicRange < v.minDynamicRange ==> LowDynamicRange(inp.dynamicRange) in issues)
      && (|w.samples| == 0 ==> AnalysisError in issues)
  }

  /** The value a decoded input records under each metric key. */
  function MetricValue(inp: QualityInput, w: Waveform, key: MetricKey): Float
  {
    match key
    case DurationKey => Finite(Duration(w))
    case SampleRateKey => Finite(w.sampleRate as real)
    case ClippingRatioKey => ClippingRatio(w.samples)
    case DynamicRangeKey => Finite(inp.dynamicRange)
    case RmsMeanKey => Finite(inp.rmsMean)
    case RmsStdKey => Finite(inp.rmsStd)
  }

  function Opt(fires: bool, x: Issue): (r: seq<Issue>)
    ensures x in r <==> fires
    ensures forall y :: y in r ==> y == x
  {
    if fires then [x] else []
  }

  /** A NaN ratio compares false with the threshold, so it never reports. */
  function ClippingIssue(v: Validator, ratio: Float): seq<Issue>
  {
    match ratio
    case NaN => []
    case Finite(c) => Opt(c > v.maxClippingRatio, ExcessiveClipping(c))
  }

  /** The steps of one check, in the order they run. The dynamic-range step
      takes the peak of the waveform, which raises on an empty one. */
  datatype Step = DurationStep | SampleRateStep | ClippingStep | DynamicRangeStep

  const Steps: seq<Step> := [DurationStep, SampleRateStep, ClippingStep, DynamicRangeStep]

  /** What one step appends to the issue list of a decoded file. */
  function StepIssues(v: Validator, inp: QualityInput, w: Waveform, s: Step): seq<Issue>
  {
    match s
    case DurationStep => Opt(Duration(w) < v.minDuration, DurationTooShort(Duration(w), v.minDuration))
    case SampleRateStep => Opt(w.sampleRate < v.minSampleRate, SampleRateTooLow(w.sampleRate, v.minSampleRate))
    case ClippingStep => ClippingIssue(v, ClippingRatio(w.samples))
    case DynamicRangeStep =>
      if |w.samples| == 0 then [AnalysisError]
      else Opt(inp.dynamicRange < v.minDynamicRange, LowDynamicRange(inp.dynamicRange))
  }

  /** What one step records in the metrics of a decoded file; the RMS
      statistics follow the dynamic range, so they are recorded with it. */
  function StepMetrics(inp: QualityInput, w: Waveform, s: Step): map<MetricKey, Float>
  {
    match s
    case DurationStep => map[DurationKey := Finite(Duration(w))]
    case SampleRateStep => map[SampleRateKey := Finite(w.sampleRate as real)]
    case ClippingStep => map[ClippingRatioKey := ClippingRatio(w.samples)]
    case DynamicRangeStep =>
      if |w.samples| == 0 then map[]
      else map[DynamicRangeKey := Finite(inp.dynamicRange), RmsMeanKey := Finite(inp.rmsMean), RmsStdKey := Finite(inp.rmsStd)]
  }

  /** The issues of these steps, run one after another. */
  function RunIssues(v: Validator, inp: QualityInput, w: Waveform, ss: seq<Step>): seq<Issue>
  {
    if ss == [] then [] else RunIssues(v, inp, w, ss[..|ss| - 1]) + StepIssues(v, inp, w, ss[|ss| - 1])
  }

  /** The metrics of these steps, run one after another. */
  function RunMetrics(inp: QualityInput, w: Waveform, ss: seq<Step>): map<MetricKey, Float>
  {
    if ss == [] then map[] else RunMetrics(inp, w, ss[..|ss| - 1]) + StepMetrics(inp, w, ss[|ss| - 1])
  }

  /** The issues of one check. A file that cannot be loaded gets only the
      analysis error; a decoded one runs every step. */
  function Issues(v: Validator, inp: QualityInput): seq<Issue>
  {
    match inp.decoded
    case None => [AnalysisError]
    case Some(w) => RunIssues(v, inp, w, Steps)
  }

  /** The metrics dictionary: every step that ran records its value. */
  function Metrics(inp: QualityInput): map<MetricKey, Float>
  {
    match inp.decoded
    case None => map[]
    case Some(w) => RunMetrics(inp, w, Steps)
  }

  /** Running the four steps is running each of them in turn. */
  lemma IssueStepsUnrolled(v: Validator, inp: QualityInput, w: Waveform)
    ensures RunIssues(v, inp, w, Steps) ==
      StepIssues(v, inp, w, DurationStep) + StepIssues(v, inp, w, SampleRateStep)
      + StepIssues(v, inp, w, ClippingStep) + StepIssues(v, inp, w, DynamicRangeStep)
  {
    var s1, s2, s3 := [DurationStep], [DurationStep, SampleRateStep], [DurationStep, SampleRateStep, ClippingStep];
    assert Steps[..3] == s3 && s3[..2] == s2 && s2[..1] == s1 && s1[..0] == [];
    assert RunIssues(v, inp, w, s1) == StepIssues(v, inp, w, DurationStep);
    assert RunIssues(v, inp, w, s2) == RunIssues(v, inp, w, s1) + StepIssues(v, inp, w, SampleRateStep);
    assert RunIssues(v, inp, w, s3) == RunIssues(v, inp, w, s2) + StepIssues(v, inp, w, ClippingStep);
    assert RunIssues(v, inp, w, Steps) == RunIssues(v, inp, w, s3) + StepIssues(v, inp, w, DynamicRangeStep);
  }

  /** Recording the metrics of the four steps is recording each step's in turn. */
  lemma MetricStepsUnrolled(inp: QualityInput, w: Waveform)
    ensures RunMetrics(inp, w, Steps) ==
      StepMetrics(inp, w, DurationStep) + StepMetrics(inp, w, SampleRateStep)
      + StepMetrics(inp, w, ClippingStep) + StepMetrics(inp, w, DynamicRangeStep)
  {
    var s1, s2, s3 := [DurationStep], [DurationStep, SampleRateStep], [DurationStep, SampleRateStep, ClippingStep];
    assert Steps[..3] == s3 && s3[..2] == s2 && s2[..1] == s1 && s1[..0] == [];
    assert RunMetrics(inp, w, s1) == StepMetrics(inp, w, DurationStep);
    assert RunMetrics(inp, w, s2) == RunMetrics(inp, w, s1) + StepMetrics(inp, w, SampleRateStep);
    assert RunMetrics(inp, w, s3) == RunMetrics(inp, w, s2) + StepMetrics(inp, w, ClippingStep);
    assert RunMetrics(inp, w, Steps) == RunMetrics(inp, w, s3) + StepMetrics(inp, w, DynamicRangeStep);
  }

  /** Issues are listed in check order, at most one of each kind. */
  lemma IssuesInCheckOrder(v: Validator, inp: QualityInput)
    ensures InCheckOrder(Issues(v, inp))
  {
    match inp.decoded
    case None =>
    case Some(w) =>
      IssueStepsUnrolled(v, inp, w);
      FourInOrder(StepIssues(v, inp, w, DurationStep), StepIssues(v, inp, w, SampleRateStep),
        StepIssues(v, inp, w, ClippingStep), StepIssues(v, inp, w, DynamicRangeStep));
  }

  /** At most one issue per rule, joined in rule order, is in check order. */
  lemma FourInOrder(a: seq<Issue>, b: seq<Issue>, c: seq<Issue>, d: seq<Issue>)
    requires |a| <= 1 && |b| <= 1 && |c| <= 1 && |d| <= 1
    requires forall x :: x in a ==> Rank(x) == 0
    requires forall x :: x in b ==> Rank(x) == 1
    requires forall x :: x in c ==> Rank(x) == 2
    requires forall x :: x in d ==> Rank(x) >= 3
    ensures InCheckOrder(a + b + c + d)
  {
  }

  /** Every reported issue comes from a rule that fired, with the measured values. */
  lemma IssuesJustified(v: Validator, inp: QualityInput)
    ensures forall x :: x in Issues(v, inp) ==> Justified(v, inp, x)
  {
    if inp.decoded.Some? {
      IssueStepsUnrolled(v, inp, inp.decoded.value);
    }
  }

  /** Every rule that fires on the input reports its issue. */
  lemma IssuesComplete(v: Validator, inp: QualityInput)
    ensures Complete(v, inp, Issues(v, inp))
  {
    if inp.decoded.Some? {
      IssueStepsUnrolled(v, inp, inp.decoded.value);
    }
  }


  /** Each step records its own key with the value measured for it. */
  lemma StepMetricsMeasured(inp: QualityInput, w: Waveform, s: Step)
    ensures forall k :: k in StepMetrics(inp, w, s) ==> StepMetrics(inp, w, s)[k] == MetricValue(inp, w, k)
  {
  }

  /** Which metrics are recorded: none when loading raised, the first three
      when taking the peak raised, all six otherwise. */
  lemma MetricKeysRecorded(inp: QualityInput)
    ensures inp.decoded.None? ==> Metrics(inp) == map[]
    ensures inp.decoded.Some? && |inp.decoded.value.samples| > 0 ==> Metrics(inp).Keys == MetricKeys
    ensures inp.decoded.Some? && |inp.decoded.value.samples| == 0 ==> Metrics(inp).Keys == EarlyMetricKeys
  {
    if inp.decoded.Some? {
      MetricStepsUnrolled(inp, inp.decoded.value);
    }
  }

  /** Every recorded metric holds the value measured for its key. */
  lemma MetricValuesRecorded(inp: QualityInput)
    ensures inp.decoded.Some? ==> forall k :: k in Metrics(inp) ==> Metrics(inp)[k] == MetricValue(inp, inp.decoded.value, k)
  {
    if inp.decoded.Some? {
      var w := inp.decoded.value;
      MetricStepsUnrolled(inp, w);
      StepMetricsMeasured(inp, w, DurationStep);
      StepMetricsMeasured(inp, w, SampleRateStep);
      StepMetricsMeasured(inp, w, ClippingStep);
      StepMetricsMeasured(inp, w, DynamicRangeStep);
    }
  }

  /** The verdict of one check: it passes exactly when no issue was recorded,
      and any raise (a failed load, an empty waveform) makes it fail. */
  function Assess(v: Validator, inp: QualityInput): (r: Report)
    ensures r.passed <==> r.issues == []
    ensures inp.decoded.None? || |inp.decoded.value.samples| == 0 ==> !r.passed && AnalysisError in r.issues
  {
    var issues := Issues(v, inp);
    Report(issues == [], issues, Metrics(inp))
  }

  /** `check_audio_quality`: runs the rules in order, appending issues and
      recording metrics as it goes; a raise ends the checks with one
      analysis-error issue. */
  method CheckAudioQuality(v: Validator, inp: QualityInput)
    returns (passed: bool, issues: seq<Issue>, metrics: map<MetricKey, Float>)
    ensures Report(passed, issues, metrics) == Assess(v, inp)
  {
    issues := [];
    metrics := map[];
    if inp.decoded.None? {
      // loading raised
      issues := issues + [AnalysisError];
    } else {
      var w := inp.decoded.value;
      var duration := Duration(w);
      metrics := metrics[DurationKey := Finite(duration)];
      if duration < v.minDuration {
        issues := issues + [DurationTooShort(duration, v.minDuration)];
      }
      ghost var issues1, metrics1 := issues, metrics;
      assert issues1 == StepIssues(v, inp, w, DurationStep);
      assert metrics1 == StepMetrics(inp, w, DurationStep);
      metrics := metrics[SampleRateKey := Finite(w.sampleRate as real)];
      if w.sampleRate < v.minSampleRate {
        issues := issues + [SampleRateTooLow(w.sampleRate, v.minSampleRate)];
      }
      ghost var issues2, metrics2 := issues, metrics;
      assert issues2 == issues1 + StepIssues(v, inp, w, SampleRateStep);
      assert metrics2 == metrics1 + StepMetrics(inp, w, SampleRateStep);
      var ratio := ClippingRatio(w.samples);
      metrics := metrics[ClippingRatioKey := ratio];
      if ratio.Finite? && ratio.value > v.maxClippingRatio {
        issues := issues + [ExcessiveClipping(ratio.value)];
      }
      ghost var issues3, metrics3 := issues, metrics;
      assert issues3 == issues2 + StepIssues(v, inp, w, ClippingStep);
      assert metrics3 == metrics2 + StepMetrics(inp, w, ClippingStep);
      if |w.samples| == 0 {
        // the peak of an empty array raises
        issues := issues + [AnalysisError];
        assert metrics == metrics3 + StepMetrics(inp, w, DynamicRangeStep);
      } else {
        metrics := metrics[DynamicRangeKey := Finite(inp.dynamicRange)];
        if inp.dynamicRange < v.minDynamicRange {
          issues := issues + [LowDynamicRange(inp.dynamicRange)];
        }
        metrics := metrics[RmsMeanKey := Finite(inp.rmsMean)];
        metrics := metrics[RmsStdKey := Finite(inp.rmsStd)];
        assert metrics == metrics3 + StepMetrics(inp, w, DynamicRangeStep);
      }
      assert issues == issues3 + StepIssues(v, inp, w, DynamicRangeStep);
      IssueStepsUnrolled(v, inp, w);
      MetricStepsUnrolled(inp, w);
    }
    passed := |issues| == 0;
  }

  /** The stored bit-depth threshold has no influence on any verdict. */
  lemma BitDepthIgnored(v: Validator, inp: QualityInput, depth: int)
    ensures Assess(v.(minBitDepth := depth), inp) == Assess(v, inp)
  {
    if inp.decoded.Some? {
      var w, v' := inp.decoded.value, v.(minBitDepth := depth);
      IssueStepsUnrolled(v, inp, w);
      IssueStepsUnrolled(v', inp, w);
      assert Issues(v', inp) == Issues(v, inp) by {
        assert StepIssues(v', inp, w, DurationStep) == StepIssues(v, inp, w, DurationStep);
        assert StepIssues(v', inp, w, SampleRateStep) == StepIssues(v, inp, w, SampleRateStep);
        assert StepIssues(v', inp, w, ClippingStep) == StepIssues(v, inp, w, ClippingStep);
        assert StepIssues(v', inp, w, DynamicRangeStep) == StepIssues(v, inp, w, DynamicRangeStep);
      }
    }
  }

  /** With the default thresholds, thirty seconds of silence at 22050 Hz fails
      on duration first and sample rate second, and still reports all six metrics. */
  lemma ShortLowRateSilenceFails(ys: seq<real>, dynamicRange: real, rmsMean: real, rmsStd: real)
    requires |ys| == 30 * 22050
    requires forall i :: 0 <= i < |ys| ==> ys[i] == 0.0
    ensures var r := Assess(DefaultValidator, QualityInput(Some(Waveform(ys, 22050)), dynamicRange, rmsMean, rmsStd));
      && !r.passed && |r.issues| >= 2
      && r.issues[0] == DurationTooShort(30.0, 60.0)
      && r.issues[1] == SampleRateTooLow(22050, 44100)
      && r.metrics.Keys == MetricKeys
  {
    var w := Waveform(ys, 22050);
    assert Duration(w) == 30.0;
    var inp := QualityInput(Some(w), dynamicRange, rmsMean, rmsStd);
    IssueStepsUnrolled(DefaultValidator, inp, w);
    MetricKeysRecorded(inp);
    assert StepIssues(DefaultValidator, inp, w, DurationStep) == [DurationTooShort(30.0, 60.0)];
    assert StepIssues(DefaultValidator, inp, w, SampleRateStep) == [SampleRateTooLow(22050, 44100)];
  }

  // ---------------------------------------------------------------------
  // validate_dataset

  datatype Summary = Summary(
    totalFiles: nat,
    passedFiles: nat,
    failedFiles: nat,
    averageMetrics: map<MetricKey, Float>)

  /** The reports of the failed files by path, and the summary. */
  datatype Validation = Validation(files: map<string, Report>, summary: Summary)

  /** One visited file with the verdict of its check. */
  datatype Checked = Checked(path: string, report: Report)

  /** The checks of the files, in traversal order. */
  function CheckAll(v: Validator, fs: seq<AudioFile<QualityInput>>): (cs: seq<Checked>)
    ensures |cs| == |fs|
    ensures forall i :: 0 <= i < |fs| ==> cs[i] == Checked(fs[i].path, Assess(v, fs[i].content))
  {
    seq(|fs|, i requires 0 <= i < |fs| => Checked(fs[i].path, Assess(v, fs[i].content)))
  }

  function PassedCount(cs: seq<Checked>): nat
  {
    if cs == [] then 0
    else PassedCount(cs[..|cs| - 1]) + (if cs[|cs| - 1].report.passed then 1 else 0)
  }

  function FailedCount(cs: seq<Checked>): nat
  {
    if cs == [] then 0
    else FailedCount(cs[..|cs| - 1]) + (if cs[|cs| - 1].report.passed then 0 else 1)
  }

  /** The `files` dictionary: each failed file's report under its path. */
  function FailedFiles(cs: seq<Checked>): map<string, Report>
  {
    if cs == [] then map[]
    else
      var last := cs[|cs| - 1];
      if last.report.passed then FailedFiles(cs[..|cs| - 1])
      else FailedFiles(cs[..|cs| - 1])[last.path := last.report]
  }

  /** `all_metrics`: the metrics of every file, passed or failed, in order. */
  function AllMetrics(cs: seq<Checked>): (ms: seq<map<MetricKey, Float>>)
    ensures |ms| == |cs| && forall i :: 0 <= i < |cs| ==> ms[i] == cs[i].report.metrics
  {
    seq(|cs|, i requires 0 <= i < |cs| => cs[i].report.metrics)
  }

  /** The values recorded under `key` by the entries that have it, in order. */
  function Column(ms: seq<map<MetricKey, Float>>, key: MetricKey): seq<Float>
  {
    if ms == [] then []
    else Column(ms[..|ms| - 1], key) + (if key in ms[|ms| - 1] then [ms[|ms| - 1][key]] else [])
  }

  /** Averages exist only for a non-empty list, and only for the keys of its first entry. */
  function AverageMetrics(ms: seq<map<MetricKey, Float>>): (avg: map<MetricKey, Float>)
    ensures avg.Keys == (if ms == [] then {} else ms[0].Keys)
  {
    if ms == [] then map[]
    else map k | k in ms[0] :: MeanF(Column(ms, k))
  }

  function Validate(v: Validator, fs: seq<AudioFile<QualityInput>>): Validation
  {
    var cs := CheckAll(v, fs);
    Validation(
      FailedFiles(cs),
      Summary(|cs|, PassedCount(cs), FailedCount(cs), AverageMetrics(AllMetrics(cs))))
  }

  /** `validate_dataset` over the listing of the downloads directory: the files
      of each genre directory in turn, skipping entries that are not directories. */
  method ValidateDataset(v: Validator, dirs: seq<GenreDir<QualityInput>>) returns (result: Validation)
    ensures result == Validate(v, Listing(dirs))
  {
    var fs := Listing(dirs);
    var files, total, passedFiles, failedFiles, allMetrics, cs := CheckEach(v, fs);
    ChecksAreCheckAll(v, fs, cs);
    var averages := map[];
    if allMetrics != [] {
      averages := map k | k in allMetrics[0] :: MeanF(Column(allMetrics, k));
    }
    result := Validation(files, Summary(total, passedFiles, failedFiles, averages));
  }

  /** The loop of `validate_dataset`: the counters, the failed files and the
      metrics of every file after visiting them all, together with the list
      `cs` of every file's report, which the loop does not keep. */
  method CheckEach(v: Validator, fs: seq<AudioFile<QualityInput>>)
    returns (files: map<string, Report>, total: nat, passedFiles: nat, failedFiles: nat,
             allMetrics: seq<map<MetricKey, Float>>, ghost cs: seq<Checked>)
    ensures |cs| == |fs|
    ensures forall j {:trigger fs[j]} :: 0 <= j < |fs| ==> cs[j] == Checked(fs[j].path, Assess(v, fs[j].content))
    ensures total == |fs|
    ensures passedFiles == PassedCount(cs) && failedFiles == FailedCount(cs)
    ensures files == FailedFiles(cs) && allMetrics == AllMetrics(cs)
  {
    files, total, passedFiles, failedFiles, allMetrics := map[], 0, 0, 0, [];
    cs := [];
    var i := 0;
    while i < |fs|
      invariant 0 <= i <= |fs|
      invariant |cs| == i
      invariant forall j {:trigger fs[j]} :: 0 <= j < i ==> cs[j] == Checked(fs[j].path, Assess(v, fs[j].content))
      invariant total == i
      invariant passedFiles == PassedCount(cs)
      invariant failedFiles == FailedCount(cs)
      invariant files == FailedFiles(cs)
      invariant allMetrics == AllMetrics(cs)
    {
      var passed, issues, metrics := CheckAudioQuality(v, fs[i].content);
      ghost var c := Checked(fs[i].path, Report(passed, issues, metrics));
      FoldStep(cs, c);
      total := total + 1;
      if !passed {
        files := files[fs[i].path := Report(false, issues, metrics)];
        failedFiles := failedFiles + 1;
      } else {
        passedFiles := passedFiles + 1;
      }
      allMetrics := allMetrics + [metrics];
      cs := cs + [c];
      i := i + 1;
    }
  }

  /** A list holding each file's path and assessment, in order, is `CheckAll`. */
  lemma ChecksAreCheckAll(v: Validator, fs: seq<AudioFile<QualityInput>>, cs: seq<Checked>)
    requires |cs| == |fs|
    requires forall j {:trigger fs[j]} :: 0 <= j < |fs| ==> cs[j] == Checked(fs[j].path, Assess(v, fs[j].content))
    ensures cs == CheckAll(v, fs)
  {
    var all := CheckAll(v, fs);
    forall j | 0 <= j < |fs|
      ensures cs[j] == all[j]
    {
      assert all[j] == Checked(fs[j].path, Assess(v, fs[j].content));
    }
  }

  /** Folding one more checked file into the counters, `files` and `all_metrics`. */
  lemma FoldStep(cs: seq<Checked>, c: Checked)
    ensures PassedCount(cs + [c]) == PassedCount(cs) + (if c.report.passed then 1 else 0)
    ensures FailedCount(cs + [c]) == FailedCount(cs) + (if c.report.passed then 0 else 1)
    ensures FailedFiles(cs + [c]) == if c.report.passed then FailedFiles(cs) else FailedFiles(cs)[c.path := c.report]
    ensures AllMetrics(cs + [c]) == AllMetrics(cs) + [c.report.metrics]
  {
    assert (cs + [c])[..|cs|] == cs;
  }

  /** After every file, the total is the number of passed plus failed files. */
  lemma {:induction false} CountsAddUp(cs: seq<Checked>)
    ensures PassedCount(cs) + FailedCount(cs) == |cs|
  {
    if cs != [] {
      CountsAddUp(cs[..|cs| - 1]);
    }
  }

  /** The position of the last failed file at `path`, or -1 if none failed. */
  function LastFailure(cs: seq<Checked>, path: string): (i: int)
    ensures -1 <= i < |cs|
    ensures i >= 0 ==> cs[i].path == path && !cs[i].report.passed
    ensures forall j :: i < j < |cs| ==> !(cs[j].path == path && !cs[j].report.passed)
  {
    if cs == [] then -1
    else
      var last := cs[|cs| - 1];
      if last.path == path && !last.report.passed then |cs| - 1
      else
        var i := LastFailure(cs[..|cs| - 1], path);
        assert forall j :: i < j < |cs| - 1 ==> cs[..|cs| - 1][j] == cs[j];
        i
  }

  /** A path is in `files` exactly when some file at that path failed, and
      the entry is the report of the last such file. */
  lemma {:induction false} FailedFilesExact(cs: seq<Checked>, path: string)
    ensures path in FailedFiles(cs) <==> LastFailure(cs, path) >= 0
    ensures path in FailedFiles(cs) ==> FailedFiles(cs)[path] == cs[LastFailure(cs, path)].report
  {
    if cs != [] {
      var init := cs[..|cs| - 1];
      FailedFilesExact(init, path);
      var i := LastFailure(init, path);
      if i >= 0 {
        assert cs[i] == init[i];
      }
    }
  }

  /** The summary counts every listed file once, as passed or as failed, and
      `files` holds exactly the paths of the files that failed their check. */
  lemma ValidationSummary(v: Validator, fs: seq<AudioFile<QualityInput>>)
    ensures var r := Validate(v, fs);
      && r.summary.totalFiles == |fs|
      && r.summary.passedFiles + r.summary.failedFiles == |fs|
      && forall path :: path in r.files <==>
           exists i :: 0 <= i < |fs| && fs[i].path == path && !Assess(v, fs[i].content).passed
  {
    var cs := CheckAll(v, fs);
    CountsAddUp(cs);
    forall path
      ensures path in FailedFiles(cs) <==>
        exists i :: 0 <= i < |fs| && fs[i].path == path && !Assess(v, fs[i].content).passed
    {
      FailedFilesExact(cs, path);
      var k := LastFailure(cs, path);
      if exists i :: 0 <= i < |fs| && fs[i].path == path && !Assess(v, fs[i].content).passed {
        var i :| 0 <= i < |fs| && fs[i].path == path && !Assess(v, fs[i].content).passed;
        assert cs[i].path == path && !cs[i].report.passed;
      }
      if k >= 0 {
        assert cs[k] == Checked(fs[k].path, Assess(v, fs[k].content));
      }
    }
  }

  /** Paths are distinct in a directory listing; then `files` has one entry per failed file. */
  lemma {:induction false} FailedFilesSize(cs: seq<Checked>)
    requires forall i, j :: 0 <= i < j < |cs| ==> cs[i].path != cs[j].path
    ensures |FailedFiles(cs)| == FailedCount(cs)
  {
    if cs != [] {
      var init := cs[..|cs| - 1];
      var last := cs[|cs| - 1];
      FailedFilesSize(init);
      if !last.report.passed {
        FailedFilesExact(init, last.path);
        assert last.path !in FailedFiles(init);
      }
    }
  }

  lemma {:induction false} ColumnOfFirst(ms: seq<map<MetricKey, Float>>, key: MetricKey)
    requires ms != [] && key in ms[0]
    ensures Column(ms, key) != [] && Column(ms, key)[0] == ms[0][key]
  {
    if |ms| > 1 {
      var init := ms[..|ms| - 1];
      assert init[0] == ms[0];
      ColumnOfFirst(init, key);
    }
  }

  /** Every averaged key has at least one value behind it (the first entry's),
      so averaging never divides by zero; the average is NaN exactly when one
      of the values is. */
  lemma AveragesAreDefined(ms: seq<map<MetricKey, Float>>, key: MetricKey)
    requires key in AverageMetrics(ms)
    ensures Column(ms, key) != []
    ensures AverageMetrics(ms)[key].Finite? <==> AllFinite(Column(ms, key))
  {
    ColumnOfFirst(ms, key);
  }
}
