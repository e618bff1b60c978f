/** The feature extractor: five extractors whose dictionaries are merged into
    one feature record per track, and a fold over a dataset that counts
    successes and failures and averages over the successful tracks. */
module Features {
  import opened Wrappers
  import opened Numeric
  import opened Dataset

  /** The field names of a feature record, which are also the keys of the
      extractor dictionaries and of `asdict` output. */
  datatype Field =
    | Tempo | Beats
    | SpectralCentroid | SpectralBandwidth | SpectralRolloff
    | Chromagram | KeyStrength
    | OnsetStrength | TempoConfidence
    | RmsEnergy | ZeroCrossingRate

  const AllFields: set<Field> := {
    Tempo, Beats, SpectralCentroid, SpectralBandwidth, SpectralRolloff,
    Chromagram, KeyStrength, OnsetStrength, TempoConfidence, RmsEnergy, ZeroCrossingRate}

  /** A value in a feature dictionary: a float, a list of floats or a list of rows. */
  datatype Value = Scalar(x: real) | Series(xs: seq<real>) | Matrix(rows: seq<seq<real>>)

  type Dict = map<Field, Value>

  /** The feature record of one track. */
  datatype AudioFeatures = AudioFeatures(
    tempo: real,
    beats: seq<real>,
    spectralCentroid: seq<real>,
    spectralBandwidth: seq<real>,
    spectralRolloff: seq<real>,
    chromagram: seq<seq<real>>,
    keyStrength: seq<real>,
    onsetStrength: seq<real>,
    tempoConfidence: real,
    rmsEnergy: seq<real>,
    zeroCrossingRate: seq<real>)

  // ---------------------------------------------------------------------
  // What the library calls report for one file. `None` means the call raised.

  /** `beat_track` on the waveform: the tempo, and the beat frames converted to seconds. */
  datatype BeatAnalysis = BeatAnalysis(tempo: real, beatTimes: seq<real>)

  /** The three spectral curves. */
  datatype SpectralCurves = SpectralCurves(centroid: seq<real>, bandwidth: seq<real>, rolloff: seq<real>)

  /** The onset envelope, and the beat frames `beat_track` finds on it. */
  datatype OnsetAnalysis = OnsetAnalysis(envelope: seq<real>, beatFrames: seq<int>)

  /** The frame-wise RMS and zero-crossing rate. */
  datatype EnergyCurves = EnergyCurves(rms: seq<real>, zcr: seq<real>)

  datatype LibraryOutput = LibraryOutput(
    loaded: bool,
    beats: Option<BeatAnalysis>,
    spectral: Option<SpectralCurves>,
    chroma: Option<seq<seq<real>>>,
    onset: Option<OnsetAnalysis>,
    energy: Option<EnergyCurves>)

  // ---------------------------------------------------------------------
  // Key strength: the maximum of each chromagram row

  function RowMax(row: seq<real>): (m: real)
    requires row != []
    ensures forall j :: 0 <= j < |row| ==> row[j] <= m
    ensures exists j :: 0 <= j < |row| && row[j] == m
  {
    if |row| == 1 then row[0]
    else
      var rest := RowMax(row[..|row| - 1]);
      if row[|row| - 1] > rest then row[|row| - 1] else rest
  }

  /** `np.max(chromagram, axis=1)`: one maximum per row; it raises when a row is empty. */
  function KeyStrengths(chroma: seq<seq<real>>): (r: Option<seq<real>>)
    ensures r.Some? <==> forall i :: 0 <= i < |chroma| ==> chroma[i] != []
    ensures r.Some? ==> |r.value| == |chroma|
    ensures r.Some? ==> forall i, j :: 0 <= i < |chroma| && 0 <= j < |chroma[i]| ==> chroma[i][j] <= r.value[i]
    ensures r.Some? ==> forall i :: 0 <= i < |chroma| ==> r.value[i] in chroma[i]
  {
    if forall i :: 0 <= i < |chroma| ==> chroma[i] != [] then
      Some(seq(|chroma|, i requires 0 <= i < |chroma| && chroma[i] != [] => RowMax(chroma[i])))
    else None
  }

  // ---------------------------------------------------------------------
  // The five extractors, each returning the dictionary the source returns

  function TemporalDict(tempo: real, beats: seq<real>): (d: Dict)
    ensures d.Keys == {Tempo, Beats}
  {
    map[Tempo := Scalar(tempo), Beats := Series(beats)]
  }

  function SpectralDict(centroid: seq<real>, bandwidth: seq<real>, rolloff: seq<real>): (d: Dict)
    ensures d.Keys == {SpectralCentroid, SpectralBandwidth, SpectralRolloff}
  {
    map[SpectralCentroid := Series(centroid), SpectralBandwidth := Series(bandwidth), SpectralRolloff := Series(rolloff)]
  }

  function HarmonicDict(chroma: seq<seq<real>>, strengths: seq<real>): (d: Dict)
    ensures d.Keys == {Chromagram, KeyStrength}
  {
    map[Chromagram := Matrix(chroma), KeyStrength := Series(strengths)]
  }

  function RhythmicDict(onset: seq<real>, confidence: real): (d: Dict)
    ensures d.Keys == {OnsetStrength, TempoConfidence}
  {
    map[OnsetStrength := Series(onset), TempoConfidence := Scalar(confidence)]
  }

  function EnergyDict(rms: seq<real>, zcr: seq<real>): (d: Dict)
    ensures d.Keys == {RmsEnergy, ZeroCrossingRate}
  {
    map[RmsEnergy := Series(rms), ZeroCrossingRate := Series(zcr)]
  }

  /** `extract_temporal_features`: the tempo and the beat times of `beat_track`. */
  function ExtractTemporal(b: BeatAnalysis): (d: Dict)
    ensures d.Keys == {Tempo, Beats}
    ensures d[Tempo] == Scalar(b.tempo) && d[Beats] == Series(b.beatTimes)
  {
    TemporalDict(b.tempo, b.beatTimes)
  }

  /** `extract_spectral_features`: the three spectral curves, unchanged. */
  function ExtractSpectral(s: SpectralCurves): (d: Dict)
    ensures d.Keys == {SpectralCentroid, SpectralBandwidth, SpectralRolloff}
    ensures d[SpectralCentroid] == Series(s.centroid) && d[SpectralBandwidth] == Series(s.bandwidth)
      && d[SpectralRolloff] == Series(s.rolloff)
  {
    SpectralDict(s.centroid, s.bandwidth, s.rolloff)
  }

  function ExtractHarmonic(chroma: seq<seq<real>>): (d: Option<Dict>)
    ensures d.Some? <==> KeyStrengths(chroma).Some?
  {
    match KeyStrengths(chroma)
    case None => None
    case Some(ks) => Some(HarmonicDict(chroma, ks))
  }

  /** The confidence is `float()` of the beat-frame array `beat_track`
      returns, which converts only an array of exactly one element. */
  function ExtractRhythmic(o: OnsetAnalysis): (d: Option<Dict>)
    ensures d.Some? <==> |o.beatFrames| == 1
  {
    if |o.beatFrames| == 1 then Some(RhythmicDict(o.envelope, o.beatFrames[0] as real)) else None
  }

  /** `extract_energy_features`: the RMS and zero-crossing curves, unchanged. */
  function ExtractEnergy(e: EnergyCurves): (d: Dict)
    ensures d.Keys == {RmsEnergy, ZeroCrossingRate}
    ensures d[RmsEnergy] == Series(e.rms) && d[ZeroCrossingRate] == Series(e.zcr)
  {
    EnergyDict(e.rms, e.zcr)
  }

  // ---------------------------------------------------------------------
  // The feature record and its dictionary form

  /** `asdict`: the record as a dictionary keyed by field name, grouped as
      the extractors group the fields. */
  function AsDict(f: AudioFeatures): (d: Dict)
    ensures d.Keys == AllFields
  {
    TemporalDict(f.tempo, f.beats)
    + SpectralDict(f.spectralCentroid, f.spectralBandwidth, f.spectralRolloff)
    + HarmonicDict(f.chromagram, f.keyStrength)
    + RhythmicDict(f.onsetStrength, f.tempoConfidence)
    + EnergyDict(f.rmsEnergy, f.zeroCrossingRate)
  }

  /** The shape each field holds. */
  predicate WellShaped(d: Dict)
  {
    && d.Keys == AllFields
    && d[Tempo].Scalar? && d[Beats].Series?
    && d[SpectralCentroid].Series? && d[SpectralBandwidth].Series? && d[SpectralRolloff].Series?
    && d[Chromagram].Matrix? && d[KeyStrength].Series?
    && d[OnsetStrength].Series? && d[TempoConfidence].Scalar?
    && d[RmsEnergy].Series? && d[ZeroCrossingRate].Series?
  }

  /** Keyword construction of the record from one dictionary: every field
      must be given, and no other. */
  function FromDict(d: Dict): (f: Option<AudioFeatures>)
    ensures f.Some? <==> WellShaped(d)
  {
    if WellShaped(d) then
      Some(AudioFeatures(
        d[Tempo].x, d[Beats].xs,
        d[SpectralCentroid].xs, d[SpectralBandwidth].xs, d[SpectralRolloff].xs,
        d[Chromagram].rows, d[KeyStrength].xs,
        d[OnsetStrength].xs, d[TempoConfidence].x,
        d[RmsEnergy].xs, d[ZeroCrossingRate].xs))
    else None
  }

  /** Each field of the record sits in `asdict` output under its own name. */
  lemma AsDictAt(f: AudioFeatures)
    ensures AsDict(f)[Tempo] == Scalar(f.tempo) && AsDict(f)[Beats] == Series(f.beats)
    ensures AsDict(f)[SpectralCentroid] == Series(f.spectralCentroid)
    ensures AsDict(f)[SpectralBandwidth] == Series(f.spectralBandwidth)
    ensures AsDict(f)[SpectralRolloff] == Series(f.spectralRolloff)
    ensures AsDict(f)[Chromagram] == Matrix(f.chromagram) && AsDict(f)[KeyStrength] == Series(f.keyStrength)
    ensures AsDict(f)[OnsetStrength] == Series(f.onsetStrength)
    ensures AsDict(f)[TempoConfidence] == Scalar(f.tempoConfidence)
    ensures AsDict(f)[RmsEnergy] == Series(f.rmsEnergy) && AsDict(f)[ZeroCrossingRate] == Series(f.zeroCrossingRate)
  {
  }

  /** Decoding the dictionary of a record gives back the record. */
  lemma DictRoundTrip(f: AudioFeatures)
    ensures FromDict(AsDict(f)) == Some(f)
  {
    AsDictAt(f);
  }

  /** A well-shaped dictionary survives decoding and re-encoding unchanged. */
  lemma RecordRoundTrip(d: Dict)
    requires WellShaped(d)
    ensures AsDict(FromDict(d).value) == d
  {
    var f := FromDict(d).value;
    AsDictAt(f);
    var e := AsDict(f);
    forall k | k in AllFields
      ensures e[k] == d[k]
    {
      match k
      case Tempo =>
      case Beats =>
      case SpectralCentroid =>
      case SpectralBandwidth =>
      case SpectralRolloff =>
      case Chromagram =>
      case KeyStrength =>
      case OnsetStrength =>
      case TempoConfidence =>
      case RmsEnergy =>
      case ZeroCrossingRate =>
    }
  }

  predicate Disjoint5(a: Dict, b: Dict, c: Dict, d: Dict, e: Dict)
  {
    && a.Keys !! b.Keys && a.Keys !! c.Keys && a.Keys !! d.Keys && a.Keys !! e.Keys
    && b.Keys !! c.Keys && b.Keys !! d.Keys && b.Keys !! e.Keys
    && c.Keys !! d.Keys && c.Keys !! e.Keys
    && d.Keys !! e.Keys
  }

  /** `AudioFeatures(**a, **b, **c, **d, **e)`: a keyword given twice raises. */
  function Combine(a: Dict, b: Dict, c: Dict, d: Dict, e: Dict): (r: Option<AudioFeatures>)
    ensures r.Some? <==> Disjoint5(a, b, c, d, e) && WellShaped(a + b + c + d + e)
    ensures r.Some? ==> AsDict(r.value) == a + b + c + d + e
  {
    var merged := a + b + c + d + e;
    if Disjoint5(a, b, c, d, e) && WellShaped(merged) then
      RecordRoundTrip(merged);
      FromDict(merged)
    else None
  }

  /** `extract_features`: the five extractors in order; any raise fails the track. */
  function ExtractFeatures(lib: LibraryOutput): Option<AudioFeatures>
  {
    if !lib.loaded || lib.beats.None? || lib.spectral.None? || lib.chroma.None?
       || lib.onset.None? || lib.energy.None? then None
    else
      var harmonic := ExtractHarmonic(lib.chroma.value);
      var rhythmic := ExtractRhythmic(lib.onset.value);
      if harmonic.None? || rhythmic.None? then None
      else Combine(
        ExtractTemporal(lib.beats.value), ExtractSpectral(lib.spectral.value),
        harmonic.value, rhythmic.value, ExtractEnergy(lib.energy.value))
  }

  /** The condition under which no extractor raises. */
  predicate Extractable(lib: LibraryOutput)
  {
    && lib.loaded && lib.beats.Some? && lib.spectral.Some? && lib.chroma.Some?
    && lib.onset.Some? && lib.energy.Some?
    && (forall i :: 0 <= i < |lib.chroma.value| ==> lib.chroma.value[i] != [])
    && |lib.onset.value.beatFrames| == 1
  }

  /** The five dictionaries have disjoint keys that together are exactly the
      record's fields, so the merge never raises; the record's dictionary is
      their union, each field taken unchanged from its extractor. */
  lemma ExtractFeaturesMerges(lib: LibraryOutput)
    ensures ExtractFeatures(lib).Some? <==> Extractable(lib)
    ensures Extractable(lib) ==>
      var f := ExtractFeatures(lib).value;
      && AsDict(f) == ExtractTemporal(lib.beats.value) + ExtractSpectral(lib.spectral.value)
           + ExtractHarmonic(lib.chroma.value).value + ExtractRhythmic(lib.onset.value).value
           + ExtractEnergy(lib.energy.value)
      && f.tempo == lib.beats.value.tempo && f.beats == lib.beats.value.beatTimes
      && f.spectralCentroid == lib.spectral.value.centroid
      && f.spectralBandwidth == lib.spectral.value.bandwidth
      && f.spectralRolloff == lib.spectral.value.rolloff
      && f.chromagram == lib.chroma.value && f.keyStrength == KeyStrengths(lib.chroma.value).value
      && f.onsetStrength == lib.onset.value.envelope
      && f.tempoConfidence == lib.onset.value.beatFrames[0] as real
      && f.rmsEnergy == lib.energy.value.rms && f.zeroCrossingRate == lib.energy.value.zcr
  {
    if Extractable(lib) {
      var b, sp, chroma, o, en := lib.beats.value, lib.spectral.value, lib.chroma.value, lib.onset.value, lib.energy.value;
      var ks := KeyStrengths(chroma).value;
      var f := AudioFeatures(
        b.tempo, b.beatTimes, sp.centroid, sp.bandwidth, sp.rolloff,
        chroma, ks, o.envelope, o.beatFrames[0] as real, en.rms, en.zcr);
      assert ExtractHarmonic(chroma) == Some(HarmonicDict(f.chromagram, f.keyStrength));
      assert ExtractRhythmic(o) == Some(RhythmicDict(f.onsetStrength, f.tempoConfidence));
      PartsDisjoint(f);
      DictRoundTrip(f);
    }
  }

  /** The five extractor dictionaries of a record share no key. */
  lemma PartsDisjoint(f: AudioFeatures)
    ensures Disjoint5(
      TemporalDict(f.tempo, f.beats),
      SpectralDict(f.spectralCentroid, f.spectralBandwidth, f.spectralRolloff),
      HarmonicDict(f.chromagram, f.keyStrength),
      RhythmicDict(f.onsetStrength, f.tempoConfidence),
      EnergyDict(f.rmsEnergy, f.zeroCrossingRate))
  {
  }

  /** A track on which `beat_track` finds two beats is counted as failed,
      however well every other call went. */
  lemma TwoBeatsFailExtraction(lib: LibraryOutput)
    requires lib.onset.Some? && |lib.onset.value.beatFrames| == 2
    ensures ExtractFeatures(lib).None?
  {
    ExtractFeaturesMerges(lib);
  }

  // ---------------------------------------------------------------------
  // process_dataset

  datatype Statistics = Statistics(
    totalFiles: nat,
    processedFiles: nat,
    failedFiles: nat,
    averageFeatures: map<Field, Float>)

  /** The `asdict` form of every successful track by path, and the statistics. */
  datatype DatasetFeatures = DatasetFeatures(features: map<string, Dict>, statistics: Statistics)

  /** One visited file with the outcome of its extraction (`None`: it raised). */
  datatype Extracted = Extracted(path: string, features: Option<AudioFeatures>)

  function ExtractAll(fs: seq<AudioFile<LibraryOutput>>): (es: seq<Extracted>)
    ensures |es| == |fs|
    ensures forall i :: 0 <= i < |fs| ==> es[i] == Extracted(fs[i].path, ExtractFeatures(fs[i].content))
  {
    if fs == [] then []
    else
      var init := fs[..|fs| - 1];
      assert forall i :: 0 <= i < |init| ==> init[i] == fs[i];
      ExtractAll(init) + [Extracted(fs[|fs| - 1].path, ExtractFeatures(fs[|fs| - 1].content))]
  }

  function ProcessedCount(es: seq<Extracted>): nat
  {
    if es == [] then 0
    else ProcessedCount(es[..|es| - 1]) + (if es[|es| - 1].features.Some? then 1 else 0)
  }

  function FailedCount(es: seq<Extracted>): nat
  {
    if es == [] then 0
    else FailedCount(es[..|es| - 1]) + (if es[|es| - 1].features.Some? then 0 else 1)
  }

  /** `all_features`: the records of the successful tracks, in order; one per processed file. */
  function Successes(es: seq<Extracted>): (all: seq<AudioFeatures>)
    ensures |all| == ProcessedCount(es)
    ensures forall f :: f in all ==> exists i :: 0 <= i < |es| && es[i].features == Some(f)
    ensures forall i :: 0 <= i < |es| && es[i].features.Some? ==> es[i].features.value in all
  {
    if es == [] then []
    else
      var init := Successes(es[..|es| - 1]);
      assert forall i :: 0 <= i < |es| - 1 ==> es[..|es| - 1][i] == es[i];
      match es[|es| - 1].features
      case None => init
      case Some(f) => init + [f]
  }

  /** The `features` dictionary: the `asdict` form of each successful track under its path. */
  function FeatureMap(es: seq<Extracted>): map<string, Dict>
  {
    if es == [] then map[]
    else
      var last := es[|es| - 1];
      match last.features
      case None => FeatureMap(es[..|es| - 1])
      case Some(f) => FeatureMap(es[..|es| - 1])[last.path := AsDict(f)]
  }

  function Tempos(all: seq<AudioFeatures>): (ts: seq<real>)
    ensures |ts| == |all| && forall i :: 0 <= i < |all| ==> ts[i] == all[i].tempo
  {
    seq(|all|, i requires 0 <= i < |all| => all[i].tempo)
  }

  function Centroids(all: seq<AudioFeatures>): seq<seq<real>>
  {
    seq(|all|, i requires 0 <= i < |all| => all[i].spectralCentroid)
  }

  function Bandwidths(all: seq<AudioFeatures>): seq<seq<real>>
  {
    seq(|all|, i requires 0 <= i < |all| => all[i].spectralBandwidth)
  }

  function RmsCurves(all: seq<AudioFeatures>): seq<seq<real>>
  {
    seq(|all|, i requires 0 <= i < |all| => all[i].rmsEnergy)
  }

  const AveragedFields: set<Field> := {Tempo, SpectralCentroid, SpectralBandwidth, RmsEnergy}

  /** The dataset averages: the mean tempo, and for each curve the mean of the
      per-track means. With no successful track the dictionary stays empty. */
  function AverageFeatures(all: seq<AudioFeatures>): (avg: map<Field, Float>)
    ensures all == [] ==> avg == map[]
    ensures all != [] ==> avg.Keys == AveragedFields && avg[Tempo].Finite?
  {
    if all == [] then map[]
    else map[
      Tempo := Mean(Tempos(all)),
      SpectralCentroid := MeanF(MeansOf(Centroids(all))),
      SpectralBandwidth := MeanF(MeansOf(Bandwidths(all))),
      RmsEnergy := MeanF(MeansOf(RmsCurves(all)))]
  }

  function Process(fs: seq<AudioFile<LibraryOutput>>): DatasetFeatures
  {
    var es := ExtractAll(fs);
    DatasetFeatures(
      FeatureMap(es),
      Statistics(|es|, ProcessedCount(es), FailedCount(es), AverageFeatures(Successes(es))))
  }

  /** `process_dataset` over the listing of the input directory: the files of
      each genre directory in turn, skipping entries that are not directories. */
  method ProcessDataset(dirs: seq<GenreDir<LibraryOutput>>) returns (result: DatasetFeatures)
    ensures result == Process(Listing(dirs))
  {
    var features, total, processed, failed, allFeatures := ExtractEach(Listing(dirs));
    var averages := map[];
    if allFeatures != [] {
      averages := map[
        Tempo := Mean(Tempos(allFeatures)),
        SpectralCentroid := MeanF(MeansOf(Centroids(allFeatures))),
        SpectralBandwidth := MeanF(MeansOf(Bandwidths(allFeatures))),
        RmsEnergy := MeanF(MeansOf(RmsCurves(allFeatures)))];
    }
    result := DatasetFeatures(features, Statistics(total, processed, failed, averages));
  }

  /** The loop of `process_dataset`: the counters, the `features` dictionary
      and the list of successful records after visiting every file. */
  method ExtractEach(fs: seq<AudioFile<LibraryOutput>>)
    returns (features: map<string, Dict>, total: nat, processed: nat, failed: nat, allFeatures: seq<AudioFeatures>)
    ensures total == |fs|
    ensures processed == ProcessedCount(ExtractAll(fs)) && failed == FailedCount(ExtractAll(fs))
    ensures features == FeatureMap(ExtractAll(fs)) && allFeatures == Successes(ExtractAll(fs))
  {
    features, total, processed, failed, allFeatures := map[], 0, 0, 0, [];
    var i := 0;
    ghost var es: seq<Extracted> := [];
    while i < |fs|
      invariant 0 <= i <= |fs|
      invariant es == ExtractAll(fs[..i])
      invariant total == i
      invariant processed == ProcessedCount(es)
      invariant failed == FailedCount(es)
      invariant features == FeatureMap(es)
      invariant allFeatures == Successes(es)
    {
      total := total + 1;
      var outcome := ExtractFeatures(fs[i].content);
      ghost var e := Extracted(fs[i].path, outcome);
      ExtractAllStep(fs, i);
      FoldStep(es, e);
      if outcome.Some? {
        var f := outcome.value;
        features := features[fs[i].path := AsDict(f)];
        allFeatures := allFeatures + [f];
        processed := processed + 1;
      } else {
        failed := failed + 1;
      }
      es := es + [e];
      i := i + 1;
    }
    assert fs[..i] == fs;
  }

  /** Extracting one more file appends its outcome. */
  lemma ExtractAllStep(fs: seq<AudioFile<LibraryOutput>>, i: nat)
    requires i < |fs|
    ensures ExtractAll(fs[..i + 1]) == ExtractAll(fs[..i]) + [Extracted(fs[i].path, ExtractFeatures(fs[i].content))]
  {
    assert fs[..i + 1][..i] == fs[..i];
  }

  /** Folding one more outcome into the counters, `features` and `all_features`. */
  lemma FoldStep(es: seq<Extracted>, e: Extracted)
    ensures ProcessedCount(es + [e]) == ProcessedCount(es) + (if e.features.Some? then 1 else 0)
    ensures FailedCount(es + [e]) == FailedCount(es) + (if e.features.Some? then 0 else 1)
    ensures FeatureMap(es + [e]) == if e.features.Some? then FeatureMap(es)[e.path := AsDict(e.features.value)] else FeatureMap(es)
    ensures Successes(es + [e]) == Successes(es) + (if e.features.Some? then [e.features.value] else [])
  {
    assert (es + [e])[..|es|] == es;
  }

  /** The records of two runs of outcomes are those of the first run followed
      by those of the second, so `all_features` keeps the order of the files. */
  lemma {:induction false} SuccessesAppend(a: seq<Extracted>, b: seq<Extracted>)
    ensures Successes(a + b) == Successes(a) + Successes(b)
    decreases |b|
  {
    if b == [] {
      assert a + b == a;
    } else {
      var b', e := b[..|b| - 1], b[|b| - 1];
      assert a + b == (a + b') + [e];
      assert b == b' + [e];
      FoldStep(a + b', e);
      FoldStep(b', e);
      SuccessesAppend(a, b');
    }
  }

  /** After every file, the total is the number of processed plus failed files. */
  lemma {:induction false} CountsAddUp(es: seq<Extracted>)
    ensures ProcessedCount(es) + FailedCount(es) == |es|
  {
    if es != [] {
      CountsAddUp(es[..|es| - 1]);
    }
  }

  /** The position of the last file at `path` whose features were extracted, or -1. */
  function LastExtracted(es: seq<Extracted>, path: string): (i: int)
    ensures -1 <= i < |es|
    ensures i >= 0 ==> es[i].path == path && es[i].features.Some?
    ensures forall j :: i < j < |es| ==> !(es[j].path == path && es[j].features.Some?)
  {
    if es == [] then -1
    else
      var last := es[|es| - 1];
      if last.path == path && last.features.Some? then |es| - 1
      else
        var i := LastExtracted(es[..|es| - 1], path);
        assert forall j :: i < j < |es| - 1 ==> es[..|es| - 1][j] == es[j];
        i
  }

  /** A path is in `features` exactly when some file at that path was
      extracted, and its entry is the dictionary of the last such file. */
  lemma {:induction false} FeatureMapExact(es: seq<Extracted>, path: string)
    ensures path in FeatureMap(es) <==> LastExtracted(es, path) >= 0
    ensures path in FeatureMap(es) ==> FeatureMap(es)[path] == AsDict(es[LastExtracted(es, path)].features.value)
  {
    if es != [] {
      var init := es[..|es| - 1];
      FeatureMapExact(init, path);
      var i := LastExtracted(init, path);
      if i >= 0 {
        assert es[i] == init[i];
      }
    }
  }

  /** The statistics count every listed file once, as processed or as failed,
      and `features` holds exactly the paths of the files whose features were extracted. */
  lemma ProcessingSummary(fs: seq<AudioFile<LibraryOutput>>)
    ensures var r := Process(fs);
      && r.statistics.totalFiles == |fs|
      && r.statistics.processedFiles + r.statistics.failedFiles == |fs|
      && forall path :: path in r.features <==>
           exists i :: 0 <= i < |fs| && fs[i].path == path && ExtractFeatures(fs[i].content).Some?
  {
    var es := ExtractAll(fs);
    CountsAddUp(es);
    forall path
      ensures path in FeatureMap(es) <==>
        exists i :: 0 <= i < |fs| && fs[i].path == path && ExtractFeatures(fs[i].content).Some?
    {
      FeatureMapExact(es, path);
      var k := LastExtracted(es, path);
      if exists i :: 0 <= i < |fs| && fs[i].path == path && ExtractFeatures(fs[i].content).Some? {
        var i :| 0 <= i < |fs| && fs[i].path == path && ExtractFeatures(fs[i].content).Some?;
        assert es[i].path == path && es[i].features.Some?;
      }
      if k >= 0 {
        assert es[k] == Extracted(fs[k].path, ExtractFeatures(fs[k].content));
      }
    }
  }

  /** The average tempo lies within any bounds of the successful tracks' tempos. */
  lemma AverageTempoBounded(all: seq<AudioFeatures>, lo: real, hi: real)
    requires all != []
    requires forall i :: 0 <= i < |all| ==> lo <= all[i].tempo <= hi
    ensures lo <= AverageFeatures(all)[Tempo].value <= hi
  {
    MeanWithin(Tempos(all), lo, hi);
  }

  /** All frames of several tracks' curves, one track after the other. */
  function Concat(curves: seq<seq<real>>): seq<real>
  {
    if curves == [] then [] else Concat(curves[..|curves| - 1]) + curves[|curves| - 1]
  }

  /** The sum of the per-track means, each an exact real. */
  function MeanSum(curves: seq<seq<real>>): real
  {
    if curves == [] then 0.0
    else
      var last := curves[|curves| - 1];
      MeanSum(curves[..|curves| - 1]) + (if last == [] then 0.0 else Sum(last) / (|last| as real))
  }

  /** With no empty track every per-track mean is finite, and they add up to `MeanSum`. */
  lemma {:induction false} MeansAddUp(curves: seq<seq<real>>)
    requires forall i :: 0 <= i < |curves| ==> curves[i] != []
    ensures AllFinite(MeansOf(curves))
    ensures Sum(Values(MeansOf(curves))) == MeanSum(curves)
  {
    if curves != [] {
      MeansAddUp(curves[..|curves| - 1]);
      MeansStep(curves);
    }
  }

  /** Adding a track adds its mean to the sum of per-track means. */
  lemma MeansStep(curves: seq<seq<real>>)
    requires curves != [] && AllFinite(MeansOf(curves[..|curves| - 1])) && curves[|curves| - 1] != []
    ensures AllFinite(MeansOf(curves))
    ensures Sum(Values(MeansOf(curves)))
      == Sum(Values(MeansOf(curves[..|curves| - 1]))) + Mean(curves[|curves| - 1]).value
  {
    var vs := Values(MeansOf(curves));
    assert vs[..|vs| - 1] == Values(MeansOf(curves[..|curves| - 1]));
  }

  lemma {:induction false} ConcatLength(curves: seq<seq<real>>, n: nat)
    requires forall i :: 0 <= i < |curves| ==> |curves[i]| == n
    ensures |Concat(curves)| == |curves| * n
  {
    if curves != [] {
      ConcatLength(curves[..|curves| - 1], n);
      NatDistribute(|curves| - 1, n);
    }
  }

  lemma {:induction false} ScaledMeanSum(curves: seq<seq<real>>, n: nat)
    requires n > 0 && forall i :: 0 <= i < |curves| ==> |curves[i]| == n
    ensures MeanSum(curves) == Sum(Concat(curves)) / (n as real)
  {
    if curves != [] {
      var init, last := curves[..|curves| - 1], curves[|curves| - 1];
      var N := n as real;
      assert forall i :: 0 <= i < |init| ==> |init[i]| == n;
      assert MeanSum(curves) == MeanSum(init) + Sum(last) / N;
      assert MeanSum(init) == Sum(Concat(init)) / N by {
        ScaledMeanSum(init, n);
      }
      assert Sum(Concat(curves)) == Sum(Concat(init)) + Sum(last) by {
        SumAppend(Concat(init), last);
      }
      AddQuotients(MeanSum(curves), MeanSum(init), Sum(Concat(init)), Sum(last), Sum(Concat(curves)), N);
    }
  }

  /** One step of the induction above, with every quantity named. */
  lemma AddQuotients(m: real, x: real, before: real, l: real, after: real, n: real)
    requires n > 0.0 && m == x + l / n && x == before / n && after == before + l
    ensures m == after / n
  {
  }

  lemma NatDistribute(k: nat, n: nat)
    ensures k * n + n == (k + 1) * n
  {
  }

  lemma CastProduct(a: nat, b: nat)
    ensures ((a * b) as real) == (a as real) * (b as real)
  {
  }

  lemma DivideTwice(a: real, k: real, n: real)
    requires k > 0.0 && n > 0.0
    ensures a / (k * n) == (a / n) / k
  {
  }

  /** The mean of per-track means, when no track is empty. */
  lemma MeanOfMeansValue(curves: seq<seq<real>>)
    requires curves != [] && forall i :: 0 <= i < |curves| ==> curves[i] != []
    ensures MeanF(MeansOf(curves)) == Finite(MeanSum(curves) / (|curves| as real))
  {
    MeansAddUp(curves);
  }

  /** The mean over all frames of tracks with `n` frames each. */
  lemma PooledMeanValue(curves: seq<seq<real>>, n: nat)
    requires curves != []
    requires n > 0 && forall i :: 0 <= i < |curves| ==> |curves[i]| == n
    ensures Mean(Concat(curves)) == Finite(MeanSum(curves) / (|curves| as real))
  {
    ConcatLength(curves, n);
    ScaledMeanSum(curves, n);
    CastProduct(|curves|, n);
    DivideTwice(Sum(Concat(curves)), |curves| as real, n as real);
  }

  /** When every track has the same number of frames, the mean of per-track
      means coincides with the mean over all frames. */
  lemma MeanOfMeansIsPooledForEqualLengths(curves: seq<seq<real>>, n: nat)
    requires curves != []
    requires n > 0 && forall i :: 0 <= i < |curves| ==> |curves[i]| == n
    ensures MeanF(MeansOf(curves)) == Mean(Concat(curves))
  {
    MeanOfMeansValue(curves);
    PooledMeanValue(curves, n);
  }

  /** With tracks of different lengths the two differ: one silent frame and
      three frames at 1.0 average to 0.5 per track but to 0.75 per frame. */
  lemma MeanOfMeansIsNotPooled()
    ensures MeanF(MeansOf([[0.0], [1.0, 1.0, 1.0]])) == Finite(0.5)
    ensures Mean(Concat([[0.0], [1.0, 1.0, 1.0]])) == Finite(0.75)
  {
    var curves := [[0.0], [1.0, 1.0, 1.0]];
    assert curves[..1] == [[0.0]];
    assert [[0.0]][..0] == [];
    assert Concat(curves) == [0.0, 1.0, 1.0, 1.0];
    assert Sum([0.0, 1.0, 1.0, 1.0]) == 3.0 by {
      assert [0.0, 1.0, 1.0, 1.0][..3] == [0.0, 1.0, 1.0];
      assert [0.0, 1.0, 1.0][..2] == [0.0, 1.0];
      assert [0.0, 1.0][..1] == [0.0];
      assert [0.0][..0] == [];
    }
    assert Sum([1.0, 1.0, 1.0]) == 3.0 by {
      assert [1.0, 1.0, 1.0][..2] == [1.0, 1.0];
      assert [1.0, 1.0][..1] == [1.0];
      assert [1.0][..0] == [];
    }
    assert Sum([0.0]) == 0.0 by {
      assert [0.0][..0] == [];
    }
    assert MeansOf(curves) == [Finite(0.0), Finite(1.0)];
    assert Values(MeansOf(curves)) == [0.0, 1.0];
    assert Sum([0.0, 1.0]) == 1.0 by {
      assert [0.0, 1.0][..1] == [0.0];
      assert [0.0][..0] == [];
    }
  }
}
