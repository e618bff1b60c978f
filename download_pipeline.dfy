/** The download pipeline: reading and checking the playlist configuration,
    the fixed per-playlist download settings, and the run over all playlists
    in which one playlist's failure does not stop the others. */
module Pipeline {
  import opened Wrappers
  import opened PyJson

  // ------------------------------------------------------------------ load_config

  /** What opening and parsing the configuration file gives. */
  datatype ConfigSource = FileMissing | NotJson | Parsed(config: Json)

  /** Why loading the configuration failed. `Uncaught` is an exception the
      checks themselves raise, which `load_config` lets through. */
  datatype ConfigError =
    | ConfigNotFound
    | InvalidJson
    | MissingField(field: string)
    | PlaylistMissingFields
    | Uncaught(raised: PyError)

  const RequiredFields: seq<string> := ["playlists"]

  /** A playlist object with both required keys. */
  predicate Complete(p: Json)
  {
    p.JObj? && "url" in Keys(p.members) && "genre" in Keys(p.members)
  }

  /** The first required field the configuration lacks, in the order listed. */
  function FirstMissing(config: Json, fields: seq<string>): (r: Option<ConfigError>)
    ensures r.None? <==> forall i :: 0 <= i < |fields| ==> In(fields[i], config) == Ok(true)
    ensures r.Some? ==> exists i :: (0 <= i < |fields|
      && (forall j :: 0 <= j < i ==> In(fields[j], config) == Ok(true))
      && In(fields[i], config) != Ok(true)
      && r.value == (if In(fields[i], config).Err? then Uncaught(In(fields[i], config).error) else MissingField(fields[i])))
  {
    if fields == [] then None
    else
      match In(fields[0], config)
      case Err(e) => Some(Uncaught(e))
      case Ok(present) => if present then FirstMissing(config, fields[1..]) else Some(MissingField(fields[0]))
  }

  /** The check of one playlist: it must have a `url` and a `genre`. */
  function CheckPlaylist(p: Json): (r: Option<ConfigError>)
    ensures p.JObj? ==> (r.None? <==> Complete(p))
    ensures p.JObj? && r.Some? ==> r.value == PlaylistMissingFields
  {
    match In("url", p)
    case Err(e) => Some(Uncaught(e))
    case Ok(hasUrl) =>
      if !hasUrl then Some(PlaylistMissingFields)
      else
        match In("genre", p)
        case Err(e) => Some(Uncaught(e))
        case Ok(hasGenre) => if hasGenre then None else Some(PlaylistMissingFields)
  }

  /** The first playlist check that fails, in configuration order. */
  function FirstInvalid(playlists: seq<Json>): (r: Option<ConfigError>)
    ensures r.None? <==> forall i :: 0 <= i < |playlists| ==> CheckPlaylist(playlists[i]).None?
    ensures r.Some? ==> exists i :: (0 <= i < |playlists|
      && (forall j :: 0 <= j < i ==> CheckPlaylist(playlists[j]).None?) && r == CheckPlaylist(playlists[i]))
  {
    if playlists == [] then None
    else
      var e := CheckPlaylist(playlists[0]);
      if e.Some? then e else FirstInvalid(playlists[1..])
  }

  /** What `load_config` returns or raises. */
  function LoadConfigResult(source: ConfigSource): (r: Result<Json, ConfigError>)
    ensures r.Ok? ==> source == Parsed(r.value)
    ensures r.Ok? ==> GetItem(r.value, "playlists").Ok? && Iterate(GetItem(r.value, "playlists").value).Ok?
  {
    match source
    case FileMissing => Err(ConfigNotFound)
    case NotJson => Err(InvalidJson)
    case Parsed(config) =>
      match FirstMissing(config, RequiredFields)
      case Some(e) => Err(e)
      case None =>
        match GetItem(config, "playlists")
        case Err(e) => Err(Uncaught(e))
        case Ok(listed) =>
          match Iterate(listed)
          case Err(e) => Err(Uncaught(e))
          case Ok(playlists) =>
            match FirstInvalid(playlists)
            case Some(e) => Err(e)
            case None => Ok(config)
  }

  /** The playlists a loaded configuration lists, as `for` visits them. */
  function Playlists(config: Json): seq<Json>
    requires GetItem(config, "playlists").Ok? && Iterate(GetItem(config, "playlists").value).Ok?
  {
    Iterate(GetItem(config, "playlists").value).value
  }

  /** `load_config`: the required fields, then every playlist, in order. */
  method LoadConfig(source: ConfigSource) returns (r: Result<Json, ConfigError>)
    ensures r == LoadConfigResult(source)
  {
    match source
    case FileMissing => return Err(ConfigNotFound);
    case NotJson => return Err(InvalidJson);
    case Parsed(config) =>
      var f := 0;
      while f < |RequiredFields|
        invariant 0 <= f <= |RequiredFields|
        invariant FirstMissing(config, RequiredFields) == FirstMissing(config, RequiredFields[f..])
      {
        assert RequiredFields[f..][1..] == RequiredFields[f + 1..];
        var present := In(RequiredFields[f], config);
        if present.Err? {
          return Err(Uncaught(present.error));
        }
        if !present.value {
          return Err(MissingField(RequiredFields[f]));
        }
        f := f + 1;
      }
      var listed := GetItem(config, "playlists");
      if listed.Err? {
        return Err(Uncaught(listed.error));
      }
      var visited := Iterate(listed.value);
      if visited.Err? {
        return Err(Uncaught(visited.error));
      }
      var playlists := visited.value;
      var i := 0;
      while i < |playlists|
        invariant 0 <= i <= |playlists|
        invariant FirstInvalid(playlists) == FirstInvalid(playlists[i..])
      {
        assert playlists[i..][1..] == playlists[i + 1..];
        var bad := CheckPlaylist(playlists[i]);
        if bad.Some? {
          return Err(bad.value);
        }
        i := i + 1;
      }
      return Ok(config);
  }

  /** Playlist objects pass the checks exactly when each is complete, and
      otherwise fail for missing fields. */
  lemma ObjectPlaylistsChecked(playlists: seq<Json>)
    requires forall i :: 0 <= i < |playlists| ==> playlists[i].JObj?
    ensures FirstInvalid(playlists).None? <==> forall i :: 0 <= i < |playlists| ==> Complete(playlists[i])
    ensures FirstInvalid(playlists).Some? ==> FirstInvalid(playlists) == Some(PlaylistMissingFields)
  {
  }

  /** A configuration object without `playlists` is rejected for that field. */
  lemma MissingPlaylistsRejected(members: seq<(string, Json)>)
    requires "playlists" !in Keys(members)
    ensures LoadConfigResult(Parsed(JObj(members))) == Err(MissingField("playlists"))
  {
  }

  /** When the playlists are objects, the configuration is accepted exactly
      when each of them has a `url` and a `genre`, whatever other keys the
      configuration or the playlists carry, and is then returned unchanged. */
  lemma ObjectPlaylistsAccepted(members: seq<(string, Json)>, playlists: seq<Json>)
    requires Lookup(members, "playlists") == Some(JArr(playlists))
    requires forall i :: 0 <= i < |playlists| ==> playlists[i].JObj?
    ensures LoadConfigResult(Parsed(JObj(members))).Ok? <==>
      forall i :: 0 <= i < |playlists| ==> Complete(playlists[i])
    ensures LoadConfigResult(Parsed(JObj(members))).Ok? ==>
      LoadConfigResult(Parsed(JObj(members))).value == JObj(members)
    ensures LoadConfigResult(Parsed(JObj(members))).Err? ==>
      LoadConfigResult(Parsed(JObj(members))) == Err(PlaylistMissingFields)
  {
    ObjectPlaylistsChecked(playlists);
  }

  /** An empty playlist list passes the checks. */
  lemma EmptyPlaylistsAccepted(members: seq<(string, Json)>)
    requires Lookup(members, "playlists") == Some(JArr([]))
    ensures LoadConfigResult(Parsed(JObj(members))) == Ok(JObj(members))
  {
  }

  // -------------------------------------------------------- setup_download_config

  /** The settings handed to the downloader for one playlist. */
  datatype DownloadConfig = DownloadConfig(
    url: Json,
    reversePlaylist: bool,
    useTitle: bool,
    useUploader: bool,
    usePlaylistName: bool)

  /** `setup_download_config`, before the settings go to the downloader. */
  function SetupDownloadConfig(p: Json): (r: Result<DownloadConfig, PyError>)
    ensures r.Ok? <==> GetItem(p, "url").Ok?
    ensures r.Ok? ==> r.value.url == GetItem(p, "url").value
    ensures r.Ok? ==> !r.value.reversePlaylist && r.value.useTitle && r.value.useUploader && r.value.usePlaylistName
  {
    match GetItem(p, "url")
    case Err(e) => Err(e)
    case Ok(url) => Ok(DownloadConfig(url, false, true, true, true))
  }

  /** Only the `url` of the playlist reaches the settings. */
  lemma OnlyUrlCopied(p: Json, q: Json)
    requires GetItem(p, "url") == GetItem(q, "url")
    ensures SetupDownloadConfig(p) == SetupDownloadConfig(q)
  {
  }

  // ------------------------------------------------------------------------- run

  /** `process_playlist`: whether the playlist was downloaded without raising.
      The genre must name a directory to download into; `fetch` stands for
      the downloader, which is not part of this model. */
  function ProcessPlaylist(p: Json, fetch: (string, DownloadConfig) -> bool): bool
  {
    match GetItem(p, "genre")
    case Ok(JStr(genre)) =>
      (match SetupDownloadConfig(p)
       case Ok(settings) => fetch(genre, settings)
       case Err(_) => false)
    case _ => false
  }

  /** The download needs a string `genre`, since joining the downloads path
      with anything else raises, and a readable `url`; the downloader is then
      handed that genre and the fixed settings carrying the url. */
  lemma ProcessPlaylistNeeds(p: Json, fetch: (string, DownloadConfig) -> bool)
    ensures !(GetItem(p, "genre").Ok? && GetItem(p, "genre").value.JStr?) ==> !ProcessPlaylist(p, fetch)
    ensures GetItem(p, "url").Err? ==> !ProcessPlaylist(p, fetch)
    ensures GetItem(p, "genre").Ok? && GetItem(p, "genre").value.JStr? && GetItem(p, "url").Ok? ==>
      ProcessPlaylist(p, fetch) == fetch(GetItem(p, "genre").value.s, DownloadConfig(GetItem(p, "url").value, false, true, true, true))
  {
  }

  /** What the run reports for one playlist: its genre, its url and whether
      the download succeeded. */
  datatype Report = Report(genre: Json, url: Json, downloaded: bool)

  datatype RunOutcome =
    | Completed(reports: seq<Report>)
    | Aborted(error: ConfigError, reports: seq<Report>)

  /** One iteration of the run: reading `genre` and `url` for the announcement
      happens outside the `try`, so a failure there ends the run. */
  function Visit(p: Json, fetch: (string, DownloadConfig) -> bool): (r: Result<Report, ConfigError>)
    ensures Complete(p) ==> r == Ok(Report(GetItem(p, "genre").value, GetItem(p, "url").value, ProcessPlaylist(p, fetch)))
    ensures !p.JObj? ==> r == Err(Uncaught(TypeError))
    ensures p.JObj? && "genre" !in Keys(p.members) ==> r == Err(Uncaught(KeyError))
  {
    match GetItem(p, "genre")
    case Err(e) => Err(Uncaught(e))
    case Ok(genre) =>
      match GetItem(p, "url")
      case Err(e) => Err(Uncaught(e))
      case Ok(url) => Ok(Report(genre, url, ProcessPlaylist(p, fetch)))
  }

  /** The run over the remaining playlists, after the reports made so far. */
  function RunFrom(done: seq<Report>, playlists: seq<Json>, fetch: (string, DownloadConfig) -> bool): RunOutcome
    decreases |playlists|
  {
    if playlists == [] then Completed(done)
    else
      match Visit(playlists[0], fetch)
      case Err(e) => Aborted(e, done)
      case Ok(report) => RunFrom(done + [report], playlists[1..], fetch)
  }

  function RunResult(source: ConfigSource, fetch: (string, DownloadConfig) -> bool): (outcome: RunOutcome)
    ensures LoadConfigResult(source).Err? ==> outcome == Aborted(LoadConfigResult(source).error, [])
  {
    match LoadConfigResult(source)
    case Err(e) => Aborted(e, [])
    case Ok(config) => RunFrom([], Playlists(config), fetch)
  }

  /** `run`: load the configuration, then visit every playlist in order. */
  method Run(source: ConfigSource, fetch: (string, DownloadConfig) -> bool) returns (outcome: RunOutcome)
    ensures outcome == RunResult(source, fetch)
  {
    var loaded := LoadConfig(source);
    if loaded.Err? {
      return Aborted(loaded.error, []);
    }
    var playlists := Playlists(loaded.value);
    var reports: seq<Report> := [];
    var i := 0;
    while i < |playlists|
      invariant 0 <= i <= |playlists|
      invariant RunResult(source, fetch) == RunFrom(reports, playlists[i..], fetch)
    {
      assert playlists[i..][1..] == playlists[i + 1..];
      var p := playlists[i];
      var genre := GetItem(p, "genre");
      if genre.Err? {
        return Aborted(Uncaught(genre.error), reports);
      }
      var url := GetItem(p, "url");
      if url.Err? {
        // a playlist whose `genre` can be read is an object, and the
        // configuration check made sure such a playlist has a `url`
        assert false;
      }
      var downloaded := ProcessPlaylist(p, fetch);
      reports := reports + [Report(genre.value, url.value, downloaded)];
      i := i + 1;
    }
    outcome := Completed(reports);
  }

  /** The report the run makes for a complete playlist object. */
  function ReportOf(p: Json, fetch: (string, DownloadConfig) -> bool): Report
    requires Complete(p)
  {
    Report(GetItem(p, "genre").value, GetItem(p, "url").value, ProcessPlaylist(p, fetch))
  }

  /** The reports of complete playlists, in order. */
  function ReportsOf(playlists: seq<Json>, fetch: (string, DownloadConfig) -> bool): (rs: seq<Report>)
    requires forall i :: 0 <= i < |playlists| ==> Complete(playlists[i])
    ensures |rs| == |playlists| && forall j :: 0 <= j < |playlists| ==> rs[j] == ReportOf(playlists[j], fetch)
  {
    if playlists == [] then []
    else
      var rest := playlists[1..];
      assert forall i :: 0 <= i < |rest| ==> rest[i] == playlists[i + 1];
      [ReportOf(playlists[0], fetch)] + ReportsOf(rest, fetch)
  }

  lemma {:induction false} RunOverComplete(done: seq<Report>, playlists: seq<Json>, fetch: (string, DownloadConfig) -> bool)
    requires forall i :: 0 <= i < |playlists| ==> Complete(playlists[i])
    ensures RunFrom(done, playlists, fetch) == Completed(done + ReportsOf(playlists, fetch))
    decreases |playlists|
  {
    if playlists != [] {
      var report := ReportOf(playlists[0], fetch);
      assert Visit(playlists[0], fetch) == Ok(report);
      RunOverComplete(done + [report], playlists[1..], fetch);
      assert done + [report] + ReportsOf(playlists[1..], fetch) == done + ReportsOf(playlists, fetch);
    } else {
      assert done + ReportsOf(playlists, fetch) == done;
    }
  }

  /** A playlist whose announcement cannot be read ends the run, keeping the
      reports of the complete playlists before it. */
  lemma {:induction false} RunStopsAtUnreadable(done: seq<Report>, playlists: seq<Json>, k: nat, fetch: (string, DownloadConfig) -> bool)
    requires k < |playlists|
    requires forall i :: 0 <= i < k ==> Complete(playlists[i])
    requires Visit(playlists[k], fetch).Err?
    ensures RunFrom(done, playlists, fetch) == Aborted(Visit(playlists[k], fetch).error, done + ReportsOf(playlists[..k], fetch))
    decreases k
  {
    if k == 0 {
      assert playlists[..0] == [];
    } else {
      var report := ReportOf(playlists[0], fetch);
      var rest := playlists[1..];
      RunStopsAtUnreadable(done + [report], rest, k - 1, fetch);
      var before := playlists[..k];
      assert before[1..] == rest[..k - 1];
      assert done + [report] + ReportsOf(rest[..k - 1], fetch) == done + ReportsOf(before, fetch);
    }
  }

  /** With a loaded configuration whose playlists are objects, the run visits
      every playlist in configuration order and reports each one; a failed
      download shows only in that playlist's report. */
  lemma RunIsolatesFailures(source: ConfigSource, fetch: (string, DownloadConfig) -> bool)
    requires LoadConfigResult(source).Ok?
    requires var ps := Playlists(LoadConfigResult(source).value);
      forall i :: 0 <= i < |ps| ==> ps[i].JObj?
    ensures var ps := Playlists(LoadConfigResult(source).value);
      && RunResult(source, fetch).Completed?
      && |RunResult(source, fetch).reports| == |ps|
      && forall j :: 0 <= j < |ps| ==> Complete(ps[j]) && RunResult(source, fetch).reports[j] == ReportOf(ps[j], fetch)
  {
    var config := LoadConfigResult(source).value;
    var ps := Playlists(config);
    ObjectPlaylistsChecked(ps);
    RunOverComplete([], ps, fetch);
  }

  /** A playlist given as a string that contains both words passes the
      checks, as `in` tests for a substring; reading its genre then raises
      `TypeError` before any playlist is processed, ending the run. */
  lemma StringPlaylistAbortsRun(fetch: (string, DownloadConfig) -> bool)
    ensures LoadConfigResult(Parsed(JObj([("playlists", JArr([JStr("genre url")]))]))).Ok?
    ensures RunResult(Parsed(JObj([("playlists", JArr([JStr("genre url")]))])), fetch) == Aborted(Uncaught(TypeError), [])
  {
    var s := "genre url";
    OccursAt("url", s, 6);
    OccursAt("genre", s, 0);
    var config := JObj([("playlists", JArr([JStr(s)]))]);
    assert Keys(config.members)[0] == "playlists";
    assert FirstMissing(config, RequiredFields) == None;
    assert CheckPlaylist(JStr(s)) == None;
    assert FirstInvalid([JStr(s)]) == None;
  }
}
