/** The metadata processor: per-track metadata with an estimated key, and the
    dataset statistics gathered over every genre directory. */
module Metadata {
  import opened Wrappers
  import opened Numeric
  import opened Dataset

  /** The pitch-class names, indexed by chroma row. */
  const PitchNames: seq<string> := ["C", "C#", "D", "D#", "E", "F", "F#", "G", "G#", "A", "A#", "B"]

  /** Every file is decoded at this fixed sample rate. */
  const LoadRate: int := 22050

  // ---------------------------------------------------------------- estimate_key

  /** `np.argmax`'s answer: the first NaN if there is one, otherwise the
      first position of the maximum. */
  predicate FirstArgmax(xs: seq<Float>, i: int)
  {
    && 0 <= i < |xs|
    && if AllFinite(xs) then
         && (forall j :: 0 <= j < |xs| ==> xs[j].value <= xs[i].value)
         && (forall j :: 0 <= j < i ==> xs[j].value < xs[i].value)
       else
         && xs[i].NaN?
         && (forall j :: 0 <= j < i ==> xs[j].Finite?)
  }

  /** `np.argmax` of a non-empty float array. */
  function Argmax(xs: seq<Float>): (i: nat)
    requires xs != []
    ensures FirstArgmax(xs, i)
  {
    if |xs| == 1 then 0
    else
      var k := Argmax(xs[..|xs| - 1]);
      var last := xs[|xs| - 1];
      if xs[k].NaN? then k
      else if last.NaN? then |xs| - 1
      else if last.value > xs[k].value then |xs| - 1
      else k
  }

  /** There is only one position `np.argmax` can return. */
  lemma FirstArgmaxUnique(xs: seq<Float>, i: int, j: int)
    requires FirstArgmax(xs, i) && FirstArgmax(xs, j)
    ensures i == j
  {
    if AllFinite(xs) {
      assert xs[i].value == xs[j].value;
    } else {
      assert xs[i].NaN? && xs[j].NaN?;
    }
  }

  /** The key of a track from its chromagram (`None`: computing it raised).
      Taking the argmax of no rows, or indexing the names past the twelfth,
      raises too, and every such failure yields no key. */
  function EstimateKey(chroma: Option<seq<seq<real>>>): (key: Option<string>)
    ensures key.Some? ==> key.value in PitchNames
    ensures key.Some? <==> chroma.Some? && chroma.value != [] && Argmax(MeansOf(chroma.value)) < |PitchNames|
  {
    match chroma
    case None => None
    case Some(rows) =>
      if rows == [] then None
      else
        var i := Argmax(MeansOf(rows));
        if i < |PitchNames| then Some(PitchNames[i]) else None
  }

  /** With twelve pitch-class rows the key is the name of the strongest row,
      the first one on ties (or the first row whose mean is NaN). */
  lemma KeyIsFirstStrongest(rows: seq<seq<real>>, i: int)
    requires |rows| == |PitchNames| && FirstArgmax(MeansOf(rows), i)
    ensures EstimateKey(Some(rows)) == Some(PitchNames[i])
  {
    FirstArgmaxUnique(MeansOf(rows), i, Argmax(MeansOf(rows)));
  }

  /** An empty chroma row has a NaN mean, and the first such row names the key. */
  lemma EmptyRowNamesKey(rows: seq<seq<real>>, i: int)
    requires |rows| == |PitchNames| && 0 <= i < |rows| && rows[i] == []
    requires forall j :: 0 <= j < i ==> rows[j] != []
    ensures EstimateKey(Some(rows)) == Some(PitchNames[i])
  {
    var ms := MeansOf(rows);
    assert !AllFinite(ms) by {
      assert ms[i].NaN?;
    }
    assert FirstArgmax(ms, i);
    KeyIsFirstStrongest(rows, i);
  }

  // ---------------------------------------------------------- process_audio_file

  /** What the library calls report for one file; `None` means the call raised.
      The RMS energy is a given value, since its square root is not modelled. */
  datatype TrackInput = TrackInput(
    samples: Option<seq<real>>,
    tempo: Option<real>,
    chroma: Option<seq<seq<real>>>,
    rmsEnergy: real,
    zeroCrossings: Option<seq<real>>,
    centroid: Option<seq<real>>,
    bandwidth: Option<seq<real>>)

  datatype TrackMetadata = TrackMetadata(
    filePath: string,
    genre: string,
    title: string,
    duration: real,
    sampleRate: int,
    tempo: real,
    key: Option<string>,
    meanAmplitude: Float,
    rmsEnergy: real,
    zeroCrossingRate: Float,
    spectralCentroid: Float,
    spectralBandwidth: Float)

  function Magnitudes(ys: seq<real>): (ms: seq<real>)
    ensures |ms| == |ys| && forall i :: 0 <= i < |ys| ==> ms[i] == Abs(ys[i])
  {
    seq(|ys|, i requires 0 <= i < |ys| => Abs(ys[i]))
  }

  /** `np.mean(np.abs(y))`: never negative, and NaN only for an empty waveform. */
  function MeanAmplitude(ys: seq<real>): (r: Float)
    ensures r.NaN? <==> ys == []
    ensures r.Finite? ==> r.value >= 0.0
  {
    MeanNonNegative(Magnitudes(ys));
    Mean(Magnitudes(ys))
  }

  /** The metadata of one track; `None` when any call outside the key
      estimate raises. A failed key estimate only leaves the key empty. */
  function ProcessAudioFile(file: AudioFile<TrackInput>, genre: string): Option<TrackMetadata>
  {
    var inp := file.content;
    if inp.samples.None? || inp.tempo.None? || inp.zeroCrossings.None?
      || inp.centroid.None? || inp.bandwidth.None? then None
    else
      var ys := inp.samples.value;
      Some(TrackMetadata(
        file.path, genre, file.stem,
        (|ys| as real) / (LoadRate as real),
        LoadRate,
        inp.tempo.value,
        EstimateKey(inp.chroma),
        MeanAmplitude(ys),
        inp.rmsEnergy,
        Mean(inp.zeroCrossings.value),
        Mean(inp.centroid.value),
        Mean(inp.bandwidth.value)))
  }

  /** The record of a processed track: its identity, the fixed rate, the
      duration of the decoded samples and the library's measurements. */
  lemma ProcessAudioFileFields(file: AudioFile<TrackInput>, genre: string)
    ensures ProcessAudioFile(file, genre).Some? <==>
      var inp := file.content;
      inp.samples.Some? && inp.tempo.Some? && inp.zeroCrossings.Some? && inp.centroid.Some? && inp.bandwidth.Some?
    ensures ProcessAudioFile(file, genre).Some? ==>
      var t := ProcessAudioFile(file, genre).value;
      var inp := file.content;
      && t.filePath == file.path && t.genre == genre && t.title == file.stem
      && t.sampleRate == LoadRate
      && t.duration * (LoadRate as real) == |inp.samples.value| as real
      && t.duration >= 0.0
      && t.tempo == inp.tempo.value
      && t.key == EstimateKey(inp.chroma)
      && (t.meanAmplitude.Finite? ==> t.meanAmplitude.value >= 0.0)
  {
    if ProcessAudioFile(file, genre).Some? {
      var n := |file.content.samples.value| as real;
      assert (n / (LoadRate as real)) * (LoadRate as real) == n;
    }
  }

  // ---------------------------------------------------------- process_all_tracks

  datatype Statistics = Statistics(
    totalTracks: nat,
    totalDuration: real,
    averageTempo: real,
    genreDistribution: map<string, nat>)

  datatype DatasetMetadata = DatasetMetadata(tracks: seq<TrackMetadata>, statistics: Statistics)

  /** The tracks of one genre's files that were processed, in order. */
  function FileTracks(genre: string, fs: seq<AudioFile<TrackInput>>): seq<TrackMetadata>
  {
    if fs == [] then []
    else
      FileTracks(genre, fs[..|fs| - 1]) + Produced(ProcessAudioFile(fs[|fs| - 1], genre))
  }

  /** What one file adds to the track list: its record, or nothing when it raised. */
  function Produced(outcome: Option<TrackMetadata>): seq<TrackMetadata>
  {
    match outcome
    case None => []
    case Some(t) => [t]
  }

  /** The tracks of one directory entry; entries that are not directories are skipped. */
  function DirTracks(d: GenreDir<TrackInput>): seq<TrackMetadata>
  {
    if d.isDir then FileTracks(d.name, d.files) else []
  }

  /** The `tracks` list after visiting these directory entries. */
  function Tracks(dirs: seq<GenreDir<TrackInput>>): seq<TrackMetadata>
  {
    if dirs == [] then [] else Tracks(dirs[..|dirs| - 1]) + DirTracks(dirs[|dirs| - 1])
  }

  /** `genre_distribution`: every directory's count of processed tracks under its name. */
  function GenreCounts(dirs: seq<GenreDir<TrackInput>>): map<string, nat>
  {
    if dirs == [] then map[]
    else
      var last := dirs[|dirs| - 1];
      if last.isDir then GenreCounts(dirs[..|dirs| - 1])[last.name := |DirTracks(last)|]
      else GenreCounts(dirs[..|dirs| - 1])
  }

  function Durations(ts: seq<TrackMetadata>): (ds: seq<real>)
    ensures |ds| == |ts| && forall i :: 0 <= i < |ts| ==> ds[i] == ts[i].duration
  {
    seq(|ts|, i requires 0 <= i < |ts| => ts[i].duration)
  }

  function TempoList(ts: seq<TrackMetadata>): (xs: seq<real>)
    ensures |xs| == |ts| && forall i :: 0 <= i < |ts| ==> xs[i] == ts[i].tempo
  {
    seq(|ts|, i requires 0 <= i < |ts| => ts[i].tempo)
  }

  /** The average tempo: the mean of the tempos, or 0 when there are none. */
  function AverageTempo(tempos: seq<real>): (avg: real)
    ensures tempos == [] ==> avg == 0.0
    ensures tempos != [] ==> Mean(tempos) == Finite(avg)
  {
    if tempos == [] then 0.0 else Sum(tempos) / (|tempos| as real)
  }

  function ProcessAll(dirs: seq<GenreDir<TrackInput>>): DatasetMetadata
  {
    var ts := Tracks(dirs);
    DatasetMetadata(ts, Statistics(|ts|, Sum(Durations(ts)), AverageTempo(TempoList(ts)), GenreCounts(dirs)))
  }

  /** Appending a track extends the duration and tempo lists by its values. */
  lemma AppendTrack(ts: seq<TrackMetadata>, t: TrackMetadata)
    ensures Sum(Durations(ts + [t])) == Sum(Durations(ts)) + t.duration
    ensures TempoList(ts + [t]) == TempoList(ts) + [t.tempo]
  {
    var ds := Durations(ts + [t]);
    assert ds[..|ds| - 1] == Durations(ts);
  }

  /** One more file of the directory being visited. */
  lemma FileTracksStep(genre: string, fs: seq<AudioFile<TrackInput>>, k: nat)
    requires k < |fs|
    ensures FileTracks(genre, fs[..k + 1]) == FileTracks(genre, fs[..k]) + Produced(ProcessAudioFile(fs[k], genre))
  {
    assert fs[..k + 1][..k] == fs[..k];
  }

  /** The inner loop of `process_all_tracks`: the files of one genre directory,
      appended to the running track list, duration total and tempo list. */
  method ProcessGenre(d: GenreDir<TrackInput>, tracks0: seq<TrackMetadata>, totalDuration0: real, allTempos0: seq<real>)
    returns (tracks: seq<TrackMetadata>, totalDuration: real, allTempos: seq<real>, genreCount: nat)
    requires totalDuration0 == Sum(Durations(tracks0)) && allTempos0 == TempoList(tracks0)
    ensures tracks == tracks0 + FileTracks(d.name, d.files)
    ensures genreCount == |FileTracks(d.name, d.files)|
    ensures totalDuration == Sum(Durations(tracks)) && allTempos == TempoList(tracks)
  {
    tracks, totalDuration, allTempos, genreCount := tracks0, totalDuration0, allTempos0, 0;
    var k := 0;
    ghost var added: seq<TrackMetadata> := [];
    while k < |d.files|
      invariant 0 <= k <= |d.files|
      invariant added == FileTracks(d.name, d.files[..k])
      invariant tracks == tracks0 + added
      invariant genreCount == |added|
      invariant totalDuration == Sum(Durations(tracks))
      invariant allTempos == TempoList(tracks)
    {
      var outcome := ProcessAudioFile(d.files[k], d.name);
      FileTracksStep(d.name, d.files, k);
      if outcome.Some? {
        var t := outcome.value;
        AppendTrack(tracks, t);
        assert tracks0 + (added + [t]) == tracks + [t];
        tracks := tracks + [t];
        totalDuration := totalDuration + t.duration;
        allTempos := allTempos + [t.tempo];
        genreCount := genreCount + 1;
        added := added + [t];
      } else {
        assert added + [] == added;
      }
      k := k + 1;
    }
    assert d.files[..k] == d.files;
  }

  /** `process_all_tracks` over the listing of the downloads directory. */
  method ProcessAllTracks(dirs: seq<GenreDir<TrackInput>>) returns (result: DatasetMetadata)
    ensures result == ProcessAll(dirs)
  {
    var tracks: seq<TrackMetadata> := [];
    var totalDuration := 0.0;
    var distribution: map<string, nat> := map[];
    var allTempos: seq<real> := [];
    var g := 0;
    while g < |dirs|
      invariant 0 <= g <= |dirs|
      invariant tracks == Tracks(dirs[..g])
      invariant totalDuration == Sum(Durations(tracks))
      invariant allTempos == TempoList(tracks)
      invariant distribution == GenreCounts(dirs[..g])
    {
      var d := dirs[g];
      assert dirs[..g + 1][..g] == dirs[..g];
      if d.isDir {
        var genreCount;
        tracks, totalDuration, allTempos, genreCount := ProcessGenre(d, tracks, totalDuration, allTempos);
        distribution := distribution[d.name := genreCount];
      }
      g := g + 1;
    }
    assert dirs[..g] == dirs;
    var averageTempo := 0.0;
    if allTempos != [] {
      averageTempo := Sum(allTempos) / (|allTempos| as real);
    }
    result := DatasetMetadata(tracks, Statistics(|tracks|, totalDuration, averageTempo, distribution));
  }

  // ------------------------------------------------------------------ properties

  /** The number of files of these directory entries that were processed. */
  function Processed(dirs: seq<GenreDir<TrackInput>>): nat
  {
    if dirs == [] then 0
    else
      var last := dirs[|dirs| - 1];
      Processed(dirs[..|dirs| - 1]) + (if last.isDir then ProcessedIn(last.name, last.files) else 0)
  }

  function ProcessedIn(genre: string, fs: seq<AudioFile<TrackInput>>): nat
  {
    if fs == [] then 0
    else ProcessedIn(genre, fs[..|fs| - 1]) + (if ProcessAudioFile(fs[|fs| - 1], genre).Some? then 1 else 0)
  }

  lemma {:induction false} FileTracksCount(genre: string, fs: seq<AudioFile<TrackInput>>)
    ensures |FileTracks(genre, fs)| == ProcessedIn(genre, fs)
  {
    if fs != [] {
      FileTracksCount(genre, fs[..|fs| - 1]);
    }
  }

  /** `total_tracks` is the number of files that were processed without error. */
  lemma {:induction false} TotalTracksCountsSuccesses(dirs: seq<GenreDir<TrackInput>>)
    ensures ProcessAll(dirs).statistics.totalTracks == Processed(dirs)
  {
    if dirs != [] {
      var last := dirs[|dirs| - 1];
      TotalTracksCountsSuccesses(dirs[..|dirs| - 1]);
      if last.isDir {
        FileTracksCount(last.name, last.files);
      }
    }
  }

  lemma {:induction false} FileTracksFacts(genre: string, fs: seq<AudioFile<TrackInput>>)
    ensures forall t :: t in FileTracks(genre, fs) ==> t.genre == genre && t.sampleRate == LoadRate && t.duration >= 0.0
  {
    if fs != [] {
      FileTracksFacts(genre, fs[..|fs| - 1]);
    }
  }

  /** Every track carries the name of a genre directory it was found in, the
      fixed sample rate and a non-negative duration. */
  lemma {:induction false} TracksFacts(dirs: seq<GenreDir<TrackInput>>)
    ensures forall t :: t in Tracks(dirs) ==>
      t.sampleRate == LoadRate && t.duration >= 0.0 &&
      exists g :: 0 <= g < |dirs| && dirs[g].isDir && dirs[g].name == t.genre
  {
    if dirs != [] {
      var init, last := dirs[..|dirs| - 1], dirs[|dirs| - 1];
      TracksFacts(init);
      if last.isDir {
        FileTracksFacts(last.name, last.files);
      }
      forall t | t in Tracks(dirs)
        ensures exists g :: 0 <= g < |dirs| && dirs[g].isDir && dirs[g].name == t.genre
      {
        if t in Tracks(init) {
          var g :| 0 <= g < |init| && init[g].isDir && init[g].name == t.genre;
          assert dirs[g] == init[g];
        } else {
          assert dirs[|dirs| - 1] == last;
        }
      }
    }
  }

  lemma {:induction false} SumNonNegativeDurations(ts: seq<TrackMetadata>)
    requires forall t :: t in ts ==> t.duration >= 0.0
    ensures Sum(Durations(ts)) >= 0.0
  {
    var ds := Durations(ts);
    forall i | 0 <= i < |ds|
      ensures ds[i] >= 0.0
    {
      assert ts[i] in ts;
    }
    SumNonNegative(ds);
  }

  /** `total_duration` is the sum of the processed tracks' durations, so never negative. */
  lemma TotalDurationNonNegative(dirs: seq<GenreDir<TrackInput>>)
    ensures ProcessAll(dirs).statistics.totalDuration >= 0.0
  {
    TracksFacts(dirs);
    SumNonNegativeDurations(Tracks(dirs));
  }

  /** The average tempo lies within any bounds of the tracks' tempos, and is 0 with no track. */
  lemma AverageTempoBounded(dirs: seq<GenreDir<TrackInput>>, lo: real, hi: real)
    requires forall t :: t in Tracks(dirs) ==> lo <= t.tempo <= hi
    ensures Tracks(dirs) == [] ==> ProcessAll(dirs).statistics.averageTempo == 0.0
    ensures Tracks(dirs) != [] ==> lo <= ProcessAll(dirs).statistics.averageTempo <= hi
  {
    var ts := Tracks(dirs);
    if ts != [] {
      forall i | 0 <= i < |ts|
        ensures lo <= TempoList(ts)[i] <= hi
      {
        assert ts[i] in ts;
      }
      MeanWithin(TempoList(ts), lo, hi);
    }
  }

  /** Exactly the directory entries that are directories get a distribution entry. */
  lemma {:induction false} EveryGenreCounted(dirs: seq<GenreDir<TrackInput>>, name: string)
    ensures name in GenreCounts(dirs) <==> exists g :: 0 <= g < |dirs| && dirs[g].isDir && dirs[g].name == name
  {
    if dirs != [] {
      var init, last := dirs[..|dirs| - 1], dirs[|dirs| - 1];
      EveryGenreCounted(init, name);
      if exists g :: 0 <= g < |dirs| && dirs[g].isDir && dirs[g].name == name {
        var g :| 0 <= g < |dirs| && dirs[g].isDir && dirs[g].name == name;
        if g < |init| {
          assert init[g] == dirs[g];
        }
      }
      if exists g :: 0 <= g < |init| && init[g].isDir && init[g].name == name {
        var g :| 0 <= g < |init| && init[g].isDir && init[g].name == name;
        assert dirs[g] == init[g];
      }
    }
  }

  /** Directory names as the filesystem guarantees them: no two alike. */
  predicate DistinctNames(dirs: seq<GenreDir<TrackInput>>)
  {
    forall g, h :: 0 <= g < h < |dirs| && dirs[g].isDir && dirs[h].isDir ==> dirs[g].name != dirs[h].name
  }

  /** With distinct names each directory's entry is its own count of processed
      tracks, which is 0 exactly when none of its files was processed. */
  lemma {:induction false} GenreCountExact(dirs: seq<GenreDir<TrackInput>>, g: int)
    requires DistinctNames(dirs) && 0 <= g < |dirs| && dirs[g].isDir
    ensures dirs[g].name in GenreCounts(dirs)
    ensures GenreCounts(dirs)[dirs[g].name] == ProcessedIn(dirs[g].name, dirs[g].files)
  {
    var init, last := dirs[..|dirs| - 1], dirs[|dirs| - 1];
    FileTracksCount(dirs[g].name, dirs[g].files);
    if g < |init| {
      assert init[g] == dirs[g];
      GenreCountExact(init, g);
    }
  }

  /** The distribution entries of the directories, added up in listing order. */
  function CountSum(dirs: seq<GenreDir<TrackInput>>, counts: map<string, nat>): nat
  {
    if dirs == [] then 0
    else
      var last := dirs[|dirs| - 1];
      CountSum(dirs[..|dirs| - 1], counts) +
      (if last.isDir && last.name in counts then counts[last.name] else 0)
  }

  /** With distinct names the distribution entries add up to `total_tracks`. */
  lemma DistributionSumsToTotal(dirs: seq<GenreDir<TrackInput>>)
    requires DistinctNames(dirs)
    ensures CountSum(dirs, GenreCounts(dirs)) == ProcessAll(dirs).statistics.totalTracks
  {
    CountSumOfCounts(dirs, |dirs|);
    assert dirs[..|dirs|] == dirs;
    TotalTracksCountsSuccesses(dirs);
  }

  lemma {:induction false} CountSumOfCounts(dirs: seq<GenreDir<TrackInput>>, n: nat)
    requires DistinctNames(dirs) && n <= |dirs|
    ensures CountSum(dirs[..n], GenreCounts(dirs)) == Processed(dirs[..n])
  {
    if n > 0 {
      var pre := dirs[..n];
      assert pre[..n - 1] == dirs[..n - 1];
      CountSumOfCounts(dirs, n - 1);
      if dirs[n - 1].isDir {
        GenreCountExact(dirs, n - 1);
      }
    }
  }
}
