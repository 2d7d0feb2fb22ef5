/**
 * One download run and the window state around it. `Download` says what a run of
 * `download_playlist` produces from the form's fields and from what the outside
 * world does (the file system, `os.makedirs`, `subprocess.Popen`, the extractor
 * and the per-entry transcoder); the class `MediaDownloader` holds the fields the
 * window updates in place: the form, the format box, `is_downloading` and the list
 * of tracked subprocesses.
 */
module Downloader {
  import opened Wrappers
  import opened Text
  import opened Rules
  import opened Conversion
  import opened Paths

  /**
   * What `extract_info` did, and the files it wrote before that. `Raised` also
   * stands for the extractor returning `None`: reading the title from it then
   * raises an `AttributeError`, whose message `message` is.
   */
  datatype Extraction =
    | Raised(message: string, written: set<string>)
    | Info(title: Option<string>, entries: Option<seq<Option<string>>>, written: set<string>)

  /** Everything a run takes from outside the program. */
  datatype World = World(
    files: set<string>,
    makedirsError: Option<string>,
    spawnError: Option<string>,
    extraction: Extraction,
    faults: map<nat, Fault>)

  /** What the closing dialog reports. */
  datatype Report =
    | Delegated(command: seq<string>, format: string, location: string)
    | Downloaded(title: string, format: string, location: string, count: nat, converted: bool)
    | Failed(message: string)

  /**
   * A finished run: its report, the files that exist afterwards, and the conversion
   * counters shown. On the external route `files` leaves out whatever the started
   * command writes: the run does not see those files.
   */
  datatype RunResult = RunResult(report: Report, files: set<string>, progress: seq<nat>)

  /** The in-process branch once the extractor returned. */
  function Extracted(format: string, directory: string, files: set<string>, title: Option<string>,
                     entries: seq<Option<string>>, faults: map<nat, Fault>): RunResult
  {
    var report := Downloaded(title.GetOr("playlist"), format, directory, SuccessCount(entries), format == "MP3");
    if format == "MP3" then
      RunResult(report, PassUpTo(entries, |entries|, files, faults), Progress(entries, |entries|, files, faults))
    else RunResult(report, files, [])
  }

  /** A run that ended in the `except` branch: the message and its tip. */
  function FailedRun(message: string, files: set<string>): RunResult {
    RunResult(Failed(WithHint(message)), files, [])
  }

  /** The in-process branch: the extractor either raised or returned the playlist. */
  function Extract(format: string, directory: string, files: set<string>, extraction: Extraction, faults: map<nat, Fault>): RunResult
  {
    match extraction
    case Raised(message, written) => FailedRun(message, files + written)
    case Info(title, entries, written) => Extracted(format, directory, files + written, title, entries.GetOr([]), faults)
  }

  /** Everything after the output directory exists: the routed branch. */
  function Fetch(format: string, url: string, directory: string, cookies: string, files: set<string>, w: World): RunResult
  {
    match Route(format, url, directory, cookies, files)
    case External(command) =>
      if w.spawnError.Some? then FailedRun(w.spawnError.value, files)
      else RunResult(Delegated(command, format, directory), files, [])
    case InProcess(_) => Extract(format, directory, files, w.extraction, w.faults)
  }

  /**
   * A run of `download_playlist` on the stripped URL, directory and cookie path.
   * Every exception of the run ends in `Failed` with the hinted message.
   */
  function Download(format: string, url: string, directory: string, cookies: string, w: World): RunResult
  {
    if directory !in w.files && w.makedirsError.Some? then FailedRun(w.makedirsError.value, w.files)
    else Fetch(format, url, directory, cookies, w.files + {directory}, w)
  }

  /** The external command runs exactly for "MP4" on a YouTube URL, once the directory exists and the process starts. */
  lemma DelegatedIff(format: string, url: string, directory: string, cookies: string, w: World)
    ensures Download(format, url, directory, cookies, w).report.Delegated? <==>
              (directory in w.files || w.makedirsError.None?) && format == "MP4" && IsYoutubeUrl(url) && w.spawnError.None?
  {
    if directory in w.files || w.makedirsError.None? {
      var files := w.files + {directory};
      if Route(format, url, directory, cookies, files).InProcess? {
        assert !Extract(format, directory, files, w.extraction, w.faults).report.Delegated?;
      }
    }
  }

  /** Converting happens only for "MP3", and only in the in-process branch. */
  lemma ConvertsOnlyForMp3(format: string, url: string, directory: string, cookies: string, w: World)
    ensures Download(format, url, directory, cookies, w).progress != [] ==>
              format == "MP3" && Download(format, url, directory, cookies, w).report == Downloaded(
                Download(format, url, directory, cookies, w).report.title, "MP3", directory,
                Download(format, url, directory, cookies, w).report.count, true)
  {
  }

  /**
   * The "Files downloaded" count and the rest of the report do not depend on how
   * the conversions went: the count is taken from the extractor's entry list.
   */
  lemma ReportIgnoresConversionFaults(format: string, url: string, directory: string, cookies: string, w: World, other: map<nat, Fault>)
    ensures Download(format, url, directory, cookies, w).report == Download(format, url, directory, cookies, w.(faults := other)).report
  {
  }

  /**
   * Every exception of a run fails it with its hinted message, and nothing else
   * does: the one of `os.makedirs` when the directory is missing and cannot be
   * created; else, on the external route, the one of `subprocess.Popen`; else the
   * extractor's. Without an exception the run is delegated or completes.
   */
  lemma FailedKeepsMessage(format: string, url: string, directory: string, cookies: string, w: World)
    ensures var r := Download(format, url, directory, cookies, w).report;
            if directory !in w.files && w.makedirsError.Some? then r == Failed(WithHint(w.makedirsError.value))
            else if format == "MP4" && IsYoutubeUrl(url) then
              (if w.spawnError.Some? then r == Failed(WithHint(w.spawnError.value)) else r.Delegated?)
            else if w.extraction.Raised? then r == Failed(WithHint(w.extraction.message))
            else r.Downloaded?
  {
  }

  /**
   * A completed in-process run: the title (defaulting to "playlist"), the format,
   * the directory and the number of delivered entries are reported; the MP3 pass
   * runs over the entries for "MP3" only, on the files the extractor left.
   */
  lemma CompletedRunReport(format: string, url: string, directory: string, cookies: string, w: World)
    requires directory in w.files || w.makedirsError.None?
    requires !(format == "MP4" && IsYoutubeUrl(url)) && w.extraction.Info?
    ensures var run := Download(format, url, directory, cookies, w);
            var entries := w.extraction.entries.GetOr([]);
            var files := w.files + {directory} + w.extraction.written;
            run.report == Downloaded(w.extraction.title.GetOr("playlist"), format, directory, SuccessCount(entries), format == "MP3")
            && run.files == (if format == "MP3" then PassUpTo(entries, |entries|, files, w.faults) else files)
            && run.progress == (if format == "MP3" then Progress(entries, |entries|, files, w.faults) else [])
  {
  }

  /**
   * A playlist of three whose middle item the extractor could not deliver: the run
   * completes and reports two files, whatever became of the conversions.
   */
  lemma PartialPlaylistScenario(url: string, directory: string, cookies: string, w: World,
                                title: string, first: string, third: string, written: set<string>)
    requires directory in w.files || w.makedirsError.None?
    requires w.extraction == Info(Some(title), Some([Some(first), None, Some(third)]), written)
    ensures Download("MP3", url, directory, cookies, w).report == Downloaded(title, "MP3", directory, 2, true)
  {
    var entries := [Some(first), None, Some(third)];
    assert CountPresent(entries, 1) == 1;
    assert CountPresent(entries, 2) == 1;
    assert CountPresent(entries, 3) == 2;
  }

  /** A subprocess the window keeps track of. */
  datatype Process = Process(command: seq<string>)

  /** How `start_download` ends. */
  datatype StartOutcome = Invalid(error: InputError) | AlreadyRunning | Started(run: RunResult)

  class MediaDownloader {
    var url: string
    var directory: string
    var cookies: string
    var format: string
    var formatOptions: seq<string>
    var isDownloading: bool
    var processes: seq<Process>

    /**
     * The window as it opens: the URL field shows the placeholder, no run is in
     * progress, and the format box has been filled for that URL.
     */
    constructor ()
      ensures url == Placeholder && directory == "" && cookies == ""
      ensures formatOptions == ["MP3", "Original Format"] && format == "MP3"
      ensures !isDownloading && processes == []
    {
      url, directory, cookies := Placeholder, "", "";
      format := "MP3";
      formatOptions := ["MP3", "Original Format"];
      isDownloading := false;
      processes := [];
      new;
      UpdateFormatOptions();
      PlaceholderIsNoUrl(directory);
    }

    /** Offers the formats for the current URL and resets a selection that is no longer offered. */
    method UpdateFormatOptions()
      modifies this`formatOptions, this`format
      ensures formatOptions == FormatOptions(url)
      ensures format == Reconciled(formatOptions, old(format))
      ensures format in formatOptions
    {
      var u := Strip(url);
      if u != [] && u != Placeholder && IsYoutubeUrl(u) {
        formatOptions := ["MP3", "MP4", "Original Format"];
      } else {
        formatOptions := ["MP3", "Original Format"];
      }
      if format !in formatOptions {
        format := "MP3";
      }
    }

    /**
     * The `try` body of one run on the stripped form fields: create the directory,
     * then either start the external command (and track its process) or extract,
     * convert and count in process.
     */
    method RunStripped(playlistUrl: string, saveDirectory: string, cookiesFile: string, w: World) returns (run: RunResult)
      modifies this`processes
      ensures run == Download(format, playlistUrl, saveDirectory, cookiesFile, w)
      ensures processes == old(processes) + (if run.report.Delegated? then [Process(run.report.command)] else [])
    {
      ghost var expected := Download(format, playlistUrl, saveDirectory, cookiesFile, w);
      var files := w.files;
      if saveDirectory !in files && w.makedirsError.Some? {
        run := FailedRun(w.makedirsError.value, files);
        return;
      }
      files := files + {saveDirectory};
      assert expected == Fetch(format, playlistUrl, saveDirectory, cookiesFile, files, w);
      var plan := Route(format, playlistUrl, saveDirectory, cookiesFile, files);
      match plan {
        case External(command) =>
          if w.spawnError.Some? {
            run := FailedRun(w.spawnError.value, files);
          } else {
            processes := processes + [Process(command)];
            run := RunResult(Delegated(command, format, saveDirectory), files, []);
          }
        case InProcess(_) =>
          assert expected == Extract(format, saveDirectory, files, w.extraction, w.faults);
          match w.extraction {
            case Raised(message, written) =>
              run := FailedRun(message, files + written);
            case Info(title, entries, written) =>
              files := files + written;
              var es := entries.GetOr([]);
              var progress := [];
              if format == "MP3" {
                files, progress := ConvertToMp3(es, files, w.faults);
              }
              var report := Downloaded(title.GetOr("playlist"), format, saveDirectory, SuccessCount(es), format == "MP3");
              run := RunResult(report, files, progress);
          }
      }
    }

    /**
     * One run. The flag is raised first; however the run ends, the flag is lowered
     * and the list of tracked subprocesses is emptied.
     */
    method DownloadPlaylist(w: World) returns (run: RunResult)
      modifies this`isDownloading, this`processes
      ensures run == Download(format, Strip(url), Strip(directory), Strip(cookies), w)
      ensures !isDownloading && processes == []
    {
      isDownloading := true;
      var playlistUrl, saveDirectory, cookiesFile := Strip(url), Strip(directory), Strip(cookies);
      run := RunStripped(playlistUrl, saveDirectory, cookiesFile, w);
      assert playlistUrl == Strip(url) && saveDirectory == Strip(directory) && cookiesFile == Strip(cookies);
      isDownloading := false;
      processes := [];
    }

    /**
     * The download button: nothing starts when the inputs are rejected or a run is
     * already in progress; otherwise the run goes ahead (sequentially here, where
     * the window hands it to a thread).
     */
    method StartDownload(w: World) returns (outcome: StartOutcome)
      modifies this`isDownloading, this`processes
      ensures Validate(url, directory).Rejected? ==> outcome == Invalid(Validate(url, directory).error) && unchanged(this)
      ensures Validate(url, directory) == Accepted && old(isDownloading) ==> outcome == AlreadyRunning && unchanged(this)
      ensures Validate(url, directory) == Accepted && !old(isDownloading) ==>
                outcome == Started(Download(format, Strip(url), Strip(directory), Strip(cookies), w))
                && !isDownloading && processes == []
    {
      var verdict := Validate(url, directory);
      if verdict.Rejected? {
        outcome := Invalid(verdict.error);
        return;
      }
      if isDownloading {
        outcome := AlreadyRunning;
        return;
      }
      var run := DownloadPlaylist(w);
      outcome := Started(run);
    }
  }
}
