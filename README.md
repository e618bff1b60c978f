# MusicDownload core, modelled in Dafny

This project models the core of the MusicDownload package of MAESTRO. The
package downloads genre playlists into one directory per genre. It then
analyses the downloaded tracks in three passes:

* **Quality validator.** It checks each file against five thresholds:
  duration, sample rate, clipping, dynamic range, and a bit depth that is
  stored but never checked. It returns a pass/fail report with issues and
  metrics, and folds these into a dataset summary.
* **Feature extractor.** It assembles an 11-field `AudioFeatures` record
  from five groups of library measurements. It folds the records into a
  dataset summary with counts and averaged features.
* **Metadata processor.** It builds per-track metadata, including a key
  estimated from the chromagram. It gathers dataset statistics per genre
  directory.

The download pipeline reads and checks the JSON configuration and builds
the fixed download settings of a playlist. It visits every playlist, and an
error inside one playlist's download does not stop the run.

The modules follow the Python files:

| module | file | content |
|---|---|---|
| `Wrappers` | `wrappers.dfy` | `Option`, `Result` |
| `Numeric` | `numeric.dfy` | sums and means as numpy computes them; `Float` = finite value or NaN |
| `Dataset` | `dataset.dfy` | audio files and genre directories as values |
| `Quality` | `quality_validator.dfy` | `quality_validator.py` |
| `Features` | `feature_extractor.dfy` | `feature_extractor.py` |
| `Metadata` | `metadata_processor.dfy` | `metadata_processor.py` |
| `PyJson` | `json_value.dfy` | how Python's `in`, `[]` and iteration behave on parsed JSON values |
| `Pipeline` | `download_pipeline.dfy` | `download_pipeline.py` |

The library's output for a file is an input to the model: the decoded
samples, tempo, chromagram, spectral curves and so on. `None` stands for a
library call that raised. The code is pure per file, so those parts are
functions. Every loop that accumulates counters, maps and lists in the
source is a `method` with a `while` loop. Each method is proved equal to a
specification function, and the lemmas state properties of those functions:

* `CheckAudioQuality`, `ValidateDataset`;
* `ProcessDataset`;
* `ProcessAllTracks` with its inner per-genre loop `ProcessGenre`;
* `LoadConfig`, `Run`.

NaN is modelled explicitly, because the code produces it in two ways:
`np.mean` of an empty array (an empty chroma row gives a NaN row mean, which
`np.argmax` then reports first), and the `0 / 0` clipping ratio of an empty
waveform.

Three behaviours of the code deserve a note:

* **Tempo confidence.** `tempo_confidence` holds `float()` of the
  beat-frame array returned by `beat_track`, so it converts only a
  one-element array. With two or more beats, `extract_features` raises and
  the file counts as failed (`Features.TwoBeatsFailExtraction`).
* **Bit depth.** `min_bit_depth` is stored and never read
  (`Quality.BitDepthIgnored`).
* **Extractor failures.** Any exception in an extractor fails the whole
  file.

Python `in` on a string is a substring test. So a configuration whose
playlist entry is the string `"genre url"` passes `load_config`. Then
`playlist['genre']` raises `TypeError` before the `try` of `run`, and the
run ends (`Pipeline.StringPlaylistAbortsRun`).

## Model

| member | source | states |
|---|---|---|
| `Numeric.Mean` | MusicDownload/music_download/metadata_processor.py:56 | `np.mean` of an array is NaN exactly when the array is empty |
| `Numeric.MeanF` | MusicDownload/music_download/quality_validator.py:108 | `np.mean` of floats is finite exactly when the array is non-empty and holds no NaN |
| `Numeric.MeansOf` | MusicDownload/music_download/metadata_processor.py:33 | definition: `np.mean` along a row axis gives one mean per row, each the mean of that row |
| `Numeric.MeanWithin` | MusicDownload/music_download/metadata_processor.py:121 | the mean of a non-empty array lies within any bounds of its elements |
| `Numeric.MeanNonNegative` | MusicDownload/music_download/metadata_processor.py:56 | the mean of non-negative values, when defined, is non-negative |
| `Quality.DurationOfSamples` | MusicDownload/music_download/quality_validator.py:32 | `Duration`: the duration is never negative, and times the sample rate it gives the number of samples |
| `Quality.ClippedCount` | MusicDownload/music_download/quality_validator.py:43 | no more samples are clipped than there are samples |
| `Quality.ClippingRatioBounds` | MusicDownload/music_download/quality_validator.py:43-45 | `ClippingRatio`: the clipping ratio is NaN exactly for an empty waveform, and otherwise a fraction in [0, 1] |
| `Quality.FullScaleClipping` | MusicDownload/music_download/quality_validator.py:43-44 | a waveform whose every sample has magnitude 1 has clipping ratio exactly 1 |
| `Quality.AllClippedCount` | MusicDownload/music_download/quality_validator.py:43 | when every sample reaches the 0.99 level, every sample counts as clipped |
| `Quality.IssuesInCheckOrder` | MusicDownload/music_download/quality_validator.py:31-61 | `Issues`, `ClippingIssue`: issues appear in the order the checks run: duration, sample rate, clipping, dynamic range, then the analysis error |
| `Quality.IssuesJustified` | MusicDownload/music_download/quality_validator.py:31-61 | `Issues`: every reported issue has its cause: the measured value violates that threshold, or the analysis raised |
| `Quality.IssuesComplete` | MusicDownload/music_download/quality_validator.py:31-61 | `Issues`: every violated threshold and every failed analysis is reported |
| `Quality.MetricKeysRecorded` | MusicDownload/music_download/quality_validator.py:29-58 | `Metrics`: a file that cannot be loaded records no metric; an empty waveform records duration, sample rate and clipping ratio only; any other file records all six metrics |
| `Quality.MetricValuesRecorded` | MusicDownload/music_download/quality_validator.py:29-58 | `Metrics`: every recorded value is the measurement of its key |
| `Quality.StepMetricsMeasured` | MusicDownload/music_download/quality_validator.py:33-58 | each check records only its own keys, each with the value it measured |
| `Quality.MetricStepsUnrolled` | MusicDownload/music_download/quality_validator.py:31-58 | the metrics dictionary is the union of the entries the four checks record, each check adding its own keys |
| `Quality.IssueStepsUnrolled` | MusicDownload/music_download/quality_validator.py:31-53 | `Issues` of a decoded file is the issues of the duration, sample-rate, clipping and dynamic-range checks, appended in that order |
| `Quality.Assess` | MusicDownload/music_download/quality_validator.py:19-63 | a file passes exactly when it has no issue; a file that cannot be loaded, or that decodes to no samples, fails with an analysis error |
| `Quality.CheckAudioQuality` | MusicDownload/music_download/quality_validator.py:19-63 | the returned pass flag, issue list and metrics are the assessment of the file |
| `Quality.BitDepthIgnored` | MusicDownload/music_download/quality_validator.py:15 | the minimum bit depth has no effect on any assessment |
| `Quality.ShortLowRateSilenceFails` | MusicDownload/music_download/quality_validator.py:7-58 | with the default thresholds, 30 s of silence at 22050 Hz fails, first for duration (30 < 60) and then for sample rate (22050 < 44100), and records all six metrics |
| `Quality.CheckAll` | MusicDownload/music_download/quality_validator.py:85-86 | one check per file, in listing order, each the assessment of that file under its path |
| `Quality.AllMetrics` | MusicDownload/music_download/quality_validator.py:103 | definition: the metrics of every checked file, passed or failed, in order |
| `Quality.AverageMetrics` | MusicDownload/music_download/quality_validator.py:106-110 | the averaged keys are the metric keys of the first file, and there are none when no file was checked |
| `Quality.ValidateDataset` | MusicDownload/music_download/quality_validator.py:65-112 | the returned files map and summary are the validation of the files of the directory entries, in listing order |
| `Quality.ValidationSummary` | MusicDownload/music_download/quality_validator.py:65-112 | `Validate`: the total is the number of files, passed plus failed files make the total, and a path is in the files map exactly when some file under it failed its check |
| `Quality.CheckEach` | MusicDownload/music_download/quality_validator.py:85-103 | after the loop, the total is the number of files; the passed and failed counts, the failed-files map and the metrics list are those of the files' assessments |
| `Quality.ChecksAreCheckAll` | MusicDownload/music_download/quality_validator.py:85-86 | a list holding each file's assessment at its position is the dataset's check list |
| `Quality.FoldStep` | MusicDownload/music_download/quality_validator.py:87-103 | one more file adds one to the passed or the failed count, enters the files map only when it failed, and appends its metrics |
| `Quality.CountsAddUp` | MusicDownload/music_download/quality_validator.py:87-100 | passed plus failed files equals the total number of files |
| `Quality.LastFailure` | MusicDownload/music_download/quality_validator.py:89-94 | the position of the last failed check of a path, or -1 when there is none |
| `Quality.FailedFilesExact` | MusicDownload/music_download/quality_validator.py:89-94 | a path is in the files map exactly when one of its checks failed, and it maps to the report of its last failure |
| `Quality.FailedFilesSize` | MusicDownload/music_download/quality_validator.py:89-95 | with distinct paths, the files map has exactly as many entries as the failed count |
| `Quality.ColumnOfFirst` | MusicDownload/music_download/quality_validator.py:108 | a key of the first file's metrics has a non-empty column that starts with the first file's value |
| `Quality.AveragesAreDefined` | MusicDownload/music_download/quality_validator.py:106-110 | every averaged key is averaged over at least one value, and its average is finite exactly when none of its values is NaN |
| `Features.RowMax` | MusicDownload/music_download/feature_extractor.py:69 | the value is at least every element of the row and is one of them |
| `Features.KeyStrengths` | MusicDownload/music_download/feature_extractor.py:69 | the row maxima exist exactly when no chroma row is empty; there is one per row, and each bounds its row and occurs in it |
| `Features.TemporalDict` | MusicDownload/music_download/feature_extractor.py:44-52 | the temporal group has exactly the fields `tempo` and `beats` |
| `Features.SpectralDict` | MusicDownload/music_download/feature_extractor.py:60-64 | the spectral group has exactly the three spectral fields |
| `Features.HarmonicDict` | MusicDownload/music_download/feature_extractor.py:71-74 | the harmonic group has exactly `chromagram` and `key_strength` |
| `Features.RhythmicDict` | MusicDownload/music_download/feature_extractor.py:81-84 | the rhythmic group has exactly `onset_strength` and `tempo_confidence` |
| `Features.EnergyDict` | MusicDownload/music_download/feature_extractor.py:91-94 | the energy group has exactly `rms_energy` and `zero_crossing_rate` |
| `Features.ExtractTemporal` | MusicDownload/music_download/feature_extractor.py:44-52 | the temporal group holds exactly `beat_track`'s tempo and the beat times |
| `Features.ExtractSpectral` | MusicDownload/music_download/feature_extractor.py:54-64 | the spectral group holds exactly the three spectral curves |
| `Features.ExtractEnergy` | MusicDownload/music_download/feature_extractor.py:86-94 | the energy group holds exactly the RMS and zero-crossing curves |
| `Features.ExtractHarmonic` | MusicDownload/music_download/feature_extractor.py:66-74 | the harmonic group is produced exactly when the key strengths exist |
| `Features.ExtractRhythmic` | MusicDownload/music_download/feature_extractor.py:76-84 | the rhythmic group is produced exactly when `beat_track` returned one beat frame |
| `Features.AsDict` | MusicDownload/music_download/feature_extractor.py:144 | `asdict` of a record has exactly the 11 feature fields |
| `Features.FromDict` | MusicDownload/music_download/feature_extractor.py:7-28 | a field mapping builds a record exactly when it has the 11 fields, each with a value of its declared shape |
| `Features.AsDictAt` | MusicDownload/music_download/feature_extractor.py:7-28 | each field of `asdict` holds the record's own value for that field |
| `Features.DictRoundTrip` | MusicDownload/music_download/feature_extractor.py:7-28 | building a record from its `asdict` gives back the same record |
| `Features.RecordRoundTrip` | MusicDownload/music_download/feature_extractor.py:7-28 | the `asdict` of a record built from a well-shaped mapping is that mapping |
| `Features.Combine` | MusicDownload/music_download/feature_extractor.py:109-115 | the merged keyword call builds a record exactly when no field is given twice and the union has every field with its shape; the record's `asdict` is then that union |
| `Features.PartsDisjoint` | MusicDownload/music_download/feature_extractor.py:109-115 | the five groups of a record share no field |
| `Features.ExtractFeaturesMerges` | MusicDownload/music_download/feature_extractor.py:96-115 | `ExtractFeatures`: extraction succeeds exactly when every library call succeeds and the harmonic and rhythmic groups can be formed; the record's `asdict` is then the union of the five groups, and each field comes from its library measurement |
| `Features.TwoBeatsFailExtraction` | MusicDownload/music_download/feature_extractor.py:79-83 | a track with two beat frames fails extraction, because `float` of a two-element array raises |
| `Features.ExtractAll` | MusicDownload/music_download/feature_extractor.py:139-143 | one extraction outcome per file, in listing order, under the file's path |
| `Features.Successes` | MusicDownload/music_download/feature_extractor.py:145 | the collected records number the processed files, each comes from a successful extraction, and every successful extraction is collected |
| `Features.SuccessesAppend` | MusicDownload/music_download/feature_extractor.py:145 | the records of two runs of outcomes are those of the first run followed by those of the second, so records keep file order |
| `Features.Tempos` | MusicDownload/music_download/feature_extractor.py:157 | definition: the tempo of every collected record, in order |
| `Features.AverageFeatures` | MusicDownload/music_download/feature_extractor.py:155-161 | with no record there are no averages; otherwise exactly tempo, spectral centroid, spectral bandwidth and RMS energy are averaged, and the tempo average is finite |
| `Features.ProcessDataset` | MusicDownload/music_download/feature_extractor.py:117-163 | the returned features map and statistics are the processing of the files of the directory entries, in listing order |
| `Features.ProcessingSummary` | MusicDownload/music_download/feature_extractor.py:117-163 | `Process`: the total is the number of files, processed plus failed files make the total, and a path is in the features map exactly when some file under it was extracted |
| `Features.ExtractEach` | MusicDownload/music_download/feature_extractor.py:139-152 | after the loop, the total, processed and failed counts, the features map and the collected records are those of the files' extraction outcomes |
| `Features.ExtractAllStep` | MusicDownload/music_download/feature_extractor.py:139-143 | one more file appends its own extraction outcome |
| `Features.FoldStep` | MusicDownload/music_download/feature_extractor.py:140-151 | one more outcome adds one to the processed or the failed count; a success also enters the features map under its path and is collected |
| `Features.CountsAddUp` | MusicDownload/music_download/feature_extractor.py:140-151 | processed plus failed files equals the total number of files |
| `Features.LastExtracted` | MusicDownload/music_download/feature_extractor.py:144 | the position of the last successful extraction of a path, or -1 when there is none |
| `Features.FeatureMapExact` | MusicDownload/music_download/feature_extractor.py:144 | a path is in the features map exactly when one of its extractions succeeded, and it maps to the `asdict` of the last one |
| `Features.AverageTempoBounded` | MusicDownload/music_download/feature_extractor.py:157 | the average tempo lies within any bounds of the records' tempos |
| `Features.MeansAddUp` | MusicDownload/music_download/feature_extractor.py:158-160 | the means of non-empty curves are all finite, and they add up to the sum of those means |
| `Features.MeansStep` | MusicDownload/music_download/feature_extractor.py:158-160 | one more non-empty curve adds its own mean to the sum of means |
| `Features.ConcatLength` | MusicDownload/music_download/feature_extractor.py:158-160 | curves of equal length n pool into count times n values |
| `Features.ScaledMeanSum` | MusicDownload/music_download/feature_extractor.py:158-160 | for curves of equal length n, the sum of their means is the pooled sum divided by n |
| `Features.MeanOfMeansValue` | MusicDownload/music_download/feature_extractor.py:158-160 | the averaged spectral and energy values are the sum of the per-record means divided by the number of records |
| `Features.PooledMeanValue` | MusicDownload/music_download/feature_extractor.py:158-160 | for curves of equal length, the mean of all pooled values is the sum of the means divided by the number of curves |
| `Features.MeanOfMeansIsPooledForEqualLengths` | MusicDownload/music_download/feature_extractor.py:158-160 | when every record has the same number of frames, the mean of means equals the mean over all frames |
| `Features.MeanOfMeansIsNotPooled` | MusicDownload/music_download/feature_extractor.py:158-160 | for records of 1 and 3 frames, the mean of means (0.5) differs from the mean over all frames (0.75) |
| `Metadata.Argmax` | MusicDownload/music_download/metadata_processor.py:34 | the index `np.argmax` reports: the first NaN if there is one, otherwise the first position of the maximum |
| `Metadata.FirstArgmaxUnique` | MusicDownload/music_download/metadata_processor.py:34 | only one index meets `np.argmax`'s description |
| `Metadata.EstimateKey` | MusicDownload/music_download/metadata_processor.py:28-41 | a key is found exactly when the chromagram was computed, has a row, and its strongest row is one of the twelve pitch classes; the key is then a pitch-class name |
| `Metadata.KeyIsFirstStrongest` | MusicDownload/music_download/metadata_processor.py:33-38 | with twelve rows, the key is the name of the first strongest row |
| `Metadata.EmptyRowNamesKey` | MusicDownload/music_download/metadata_processor.py:33-38 | an empty chroma row has a NaN mean, and the first such row names the key |
| `Metadata.Magnitudes` | MusicDownload/music_download/metadata_processor.py:56 | definition: the absolute value of every sample |
| `Metadata.MeanAmplitude` | MusicDownload/music_download/metadata_processor.py:56 | the mean amplitude is never negative, and it is NaN exactly for an empty waveform |
| `Metadata.ProcessAudioFileFields` | MusicDownload/music_download/metadata_processor.py:43-77 | `ProcessAudioFile`: a track is produced exactly when loading, beat tracking, zero-crossing and the spectral calls succeed, so a failed key estimate alone does not drop it; the track carries its path, genre and title, the fixed rate 22050, a non-negative duration of samples over rate, the tracked tempo and the estimated key |
| `Metadata.Durations` | MusicDownload/music_download/metadata_processor.py:109 | definition: the duration of every track, in order |
| `Metadata.TempoList` | MusicDownload/music_download/metadata_processor.py:110 | definition: the tempo of every track, in order |
| `Metadata.AverageTempo` | MusicDownload/music_download/metadata_processor.py:120-121 | the average tempo is 0 with no tempos, and otherwise their mean |
| `Metadata.AppendTrack` | MusicDownload/music_download/metadata_processor.py:105-110 | appending a track adds its duration to the total and appends its tempo |
| `Metadata.FileTracksStep` | MusicDownload/music_download/metadata_processor.py:102-114 | one more file of a genre adds its track, or nothing when processing it raised |
| `Metadata.ProcessGenre` | MusicDownload/music_download/metadata_processor.py:99-114 | the inner loop appends the genre's processed tracks to the list, keeps the duration total and tempo list in step with the tracks, and counts the added tracks |
| `Metadata.ProcessAllTracks` | MusicDownload/music_download/metadata_processor.py:79-123 | the returned tracks and statistics are `ProcessAll` of the directory listing |
| `Metadata.FileTracksCount` | MusicDownload/music_download/metadata_processor.py:102-111 | `FileTracks`: a genre contributes one track per file that was processed without error |
| `Metadata.TotalTracksCountsSuccesses` | MusicDownload/music_download/metadata_processor.py:119 | `ProcessAll`: `total_tracks` is the number of files processed without error, in directories only |
| `Metadata.FileTracksFacts` | MusicDownload/music_download/metadata_processor.py:104 | every track of a genre carries that genre, the fixed rate and a non-negative duration |
| `Metadata.TracksFacts` | MusicDownload/music_download/metadata_processor.py:94-105 | `Tracks`: every track carries the name of a directory it was found in, the fixed rate and a non-negative duration |
| `Metadata.SumNonNegativeDurations` | MusicDownload/music_download/metadata_processor.py:109 | durations that are each non-negative add up to a non-negative total |
| `Metadata.TotalDurationNonNegative` | MusicDownload/music_download/metadata_processor.py:109 | `total_duration` is never negative |
| `Metadata.AverageTempoBounded` | MusicDownload/music_download/metadata_processor.py:120-121 | the average tempo is 0 with no track, and otherwise lies within any bounds of the tracks' tempos |
| `Metadata.EveryGenreCounted` | MusicDownload/music_download/metadata_processor.py:94-116 | `GenreCounts`: a name has a distribution entry exactly when some directory, and not a plain file, bears it |
| `Metadata.GenreCountExact` | MusicDownload/music_download/metadata_processor.py:99-116 | with distinct directory names, a directory's entry is its number of processed files |
| `Metadata.DistributionSumsToTotal` | MusicDownload/music_download/metadata_processor.py:116-119 | with distinct directory names, the distribution entries add up to `total_tracks` |
| `Metadata.CountSumOfCounts` | MusicDownload/music_download/metadata_processor.py:116-119 | over any leading run of directories, their entries add up to their processed files |
| `PyJson.Keys` | MusicDownload/music_download/download_pipeline.py:32 | definition: the keys of an object's members, in order |
| `PyJson.Lookup` | MusicDownload/music_download/download_pipeline.py:35 | a key is found exactly when some member has it, and the value found is that member's |
| `PyJson.In` | MusicDownload/music_download/download_pipeline.py:32-36 | `in` works only on objects, arrays and strings (otherwise `TypeError`); on an object it tests the keys, on an array the elements |
| `PyJson.GetItem` | MusicDownload/music_download/download_pipeline.py:55-56 | indexing by a string succeeds exactly on an object that has the key and gives its value; it raises `KeyError` exactly on an object without the key |
| `PyJson.Iterate` | MusicDownload/music_download/download_pipeline.py:35 | iteration works only on objects, arrays and strings: an array yields its items, an object its keys, a string its characters |
| `PyJson.GetItemImpliesIn` | MusicDownload/music_download/download_pipeline.py:35-36 | a key that can be read is reported present by `in` |
| `PyJson.OccursAt` | MusicDownload/music_download/download_pipeline.py:36 | a string found at some position is a substring, so `in` on a string reports it |
| `Pipeline.FirstMissing` | MusicDownload/music_download/download_pipeline.py:30-33 | no error exactly when `in` reports every required field present; otherwise the error belongs to the first field that is absent or whose test raised |
| `Pipeline.CheckPlaylist` | MusicDownload/music_download/download_pipeline.py:36-37 | a playlist object passes exactly when it has `url` and `genre`, and otherwise fails with the missing-fields error |
| `Pipeline.FirstInvalid` | MusicDownload/music_download/download_pipeline.py:35-37 | no error exactly when every playlist passes its check; otherwise the error of the first playlist that fails |
| `Pipeline.LoadConfigResult` | MusicDownload/music_download/download_pipeline.py:24-43 | an accepted configuration is the parsed file itself, and its `playlists` can be read and iterated |
| `Pipeline.LoadConfig` | MusicDownload/music_download/download_pipeline.py:24-43 | the returned configuration or error is `LoadConfigResult` of the source |
| `Pipeline.ObjectPlaylistsChecked` | MusicDownload/music_download/download_pipeline.py:35-37 | object playlists pass the check exactly when each has `url` and `genre`, and otherwise fail with the missing-fields error |
| `Pipeline.MissingPlaylistsRejected` | MusicDownload/music_download/download_pipeline.py:30-33 | a configuration without `playlists` is rejected for that missing field |
| `Pipeline.ObjectPlaylistsAccepted` | MusicDownload/music_download/download_pipeline.py:30-39 | with an array of object playlists, the configuration is accepted unchanged exactly when every playlist has `url` and `genre`, and otherwise fails with the missing-fields error |
| `Pipeline.EmptyPlaylistsAccepted` | MusicDownload/music_download/download_pipeline.py:30-39 | a configuration with an empty playlist array is accepted unchanged |
| `Pipeline.SetupDownloadConfig` | MusicDownload/music_download/download_pipeline.py:45-61 | the settings exist exactly when the playlist's `url` can be read; they copy that url and fix the four flags (no reversal, title, uploader, playlist name) |
| `Pipeline.OnlyUrlCopied` | MusicDownload/music_download/download_pipeline.py:55-61 | two playlists with the same `url` get the same settings |
| `Pipeline.ProcessPlaylistNeeds` | MusicDownload/music_download/download_pipeline.py:64-92 | `ProcessPlaylist`: a playlist without a string `genre`, or without a readable `url`, is not downloaded; otherwise the downloader receives that genre and the fixed settings carrying the url |
| `Pipeline.Visit` | MusicDownload/music_download/download_pipeline.py:98-105 | a complete playlist is reported with its genre, url and download outcome; reading `genre` from a non-object raises `TypeError`, and from an object without it `KeyError` |
| `Pipeline.RunStopsAtUnreadable` | MusicDownload/music_download/download_pipeline.py:98-105 | `RunFrom`: the first playlist whose announcement cannot be read ends the run with that error, keeping the reports of the complete playlists before it |
| `Pipeline.RunResult` | MusicDownload/music_download/download_pipeline.py:94-96 | a configuration that fails to load aborts the run before any playlist |
| `Pipeline.Run` | MusicDownload/music_download/download_pipeline.py:94-105 | the returned outcome is `RunResult`: loading, then `RunFrom` over the loaded playlists |
| `Pipeline.ReportsOf` | MusicDownload/music_download/download_pipeline.py:98-105 | one report per playlist, in order |
| `Pipeline.RunOverComplete` | MusicDownload/music_download/download_pipeline.py:98-105 | over playlists that all have `url` and `genre`, the run completes and appends one report per playlist |
| `Pipeline.RunIsolatesFailures` | MusicDownload/music_download/download_pipeline.py:94-105 | once the configuration loads with object playlists, the run completes with one report per playlist, whether or not each download succeeded |
| `Pipeline.StringPlaylistAbortsRun` | MusicDownload/music_download/download_pipeline.py:96-100 | a playlist given as the string `"genre url"` passes loading, but reading its `genre` raises `TypeError` outside the `try` and ends the run |
| `Dataset.Listing` | MusicDownload/music_download/quality_validator.py:79-85 | every listed file belongs to an entry that is a directory, and every file of a directory entry is listed |
| `Dataset.ListingOfOne` | MusicDownload/music_download/quality_validator.py:79-85 | a single entry lists its files when it is a directory, and nothing otherwise |
| `Dataset.ListingAppend` | MusicDownload/music_download/quality_validator.py:79-85 | the listing of two runs of entries is the first run's listing followed by the second's, so files keep entry order |

## Left out

- Library analysis, meaning `librosa` loading, beat tracking, chroma, spectral, RMS and zero-crossing computations: their results are inputs, and `None` marks a call that raised.
- `log10`, `sqrt` and `np.std`: the dynamic range, the RMS mean and standard deviation of the validator, and the RMS energy of a track are given real inputs, not computed from the samples.
- Floating point: values are exact reals. Rounding, infinities and overflow are not modelled. NaN is modelled only where the code computes it: the mean of an empty array and the `0 / 0` clipping ratio of an empty waveform. Input measurements (samples, curves, tempo, dynamic range) are always finite, so the `-inf` dynamic range of a silent file (`20 * log10(0)`) cannot be expressed.
- Dictionary order: Python dictionaries keep insertion order, which shows in the JSON the results are saved as. The model's maps (metrics, files, features, genre distribution) are unordered, so that order is not modelled.
- Directory traversal (`iterdir`, `glob`, `is_dir`): the listing is a value. The metadata processor's nested directory/file loop is modelled. The validator and the feature extractor take the directory entries and fold over their files in listing order (`Dataset.Listing`).
- Console output and the formatting of issue messages: an issue is a datatype carrying the values its message prints.
- Reading the configuration file and parsing JSON: the parse result (missing file, invalid JSON, or a value) is an input, and a parsed object keeps its members in file order. Duplicate keys are not modelled.
- `setup_config`, `generate_playlist`, the directory creation and the changes of working directory in `process_playlist`: the downloader is the `fetch` parameter, which says whether the download of a settings record succeeded. Errors raised by `mkdir` or `chdir` are not modelled.
- `save_metadata` and the `run` driver of the metadata processor, the constructors' directory setup, and all of `main.py`.
- `Pipeline.SetupDownloadConfig`: stops at the settings record, because the value `setup_config` returns from it is not part of this model.
- Dataclass field types: `AudioFeatures` and `TrackMetadata` accept any values, as Python dataclasses do not check types. `FromDict` asks only for the shape of each value.
- `Metadata.ProcessAudioFile`: `float(tempo)` is taken to succeed whenever beat tracking did, so a tempo array of several elements is not modelled.
- `Features.ExtractTemporal`: the tempo of `beat_track` is a real (`BeatAnalysis.tempo`), so `float(tempo)` of an array of several elements is not modelled.
- `Pipeline.LoadConfig`: only a missing file and invalid JSON are modelled as load errors; other errors of `open` (`PermissionError`, `IsADirectoryError`) and a `UnicodeDecodeError` from `json.load` pass through `load_config` unmodelled.
- Concurrency: none is present in the core.
