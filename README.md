# Media Playlist Downloader — a verified model of its decision core

The downloader is a desktop window (`app.py`). It takes four inputs: a playlist URL, an output directory, an optional cookies file and an output format ("MP3", "MP4" or "Original Format"). It then downloads the playlist with yt-dlp. This project models the logic that decides what happens, and proves properties of it. The window, yt-dlp, the audio transcoder and the operating system are not modelled.

The model covers:

- **URL classification** (`Rules.IsYoutubeUrl`): a case-insensitive substring test against four domains. It runs on Python's `str.lower` (`Text.Lower`) and the `in` operator (`Text.Contains`).
- **Format box** (`Rules.FormatOptions`, `Rules.Reconciled`): which formats are offered for the URL in the field, and how the current selection is reset when it is no longer offered. `Downloader.MediaDownloader.UpdateFormatOptions` updates the two fields in place.
- **Input validation** (`Rules.Validate`): the URL field is checked first, then the directory. Both are checked after Python's `str.strip` (`Text.Strip`).
- **Routing and options** (`Rules.Route`):
  - The external command (`Rules.ExternalCommand`) runs for "MP4" on a YouTube URL.
  - Every other case runs the in-process extractor with its options dictionary (`Rules.InProcessOptions`), which carries the cookie decision and `ignoreerrors`.
- **The MP3 pass** (`Conversion.ConvertToMp3`): the loop over the extracted entries, with per-entry failure isolation.
  - The target name comes from `os.path.splitext` (`Paths.SplitExt`, `Paths.Mp3Path`).
  - The output template is placed with `os.path.join` (`Paths.Join`).
- **Report** (`Rules.SuccessCount`, `Rules.WithHint`): the "Files downloaded" figure, and the tip appended to an error message.
- **The run and the single-flight flag** (`Downloader`):
  - `Download` is a function that gives the result of one run of `download_playlist`.
  - The class `MediaDownloader` holds the fields the window updates in place: the form, the format box, `is_downloading` and the list of tracked processes.
  - `StartDownload` and `DownloadPlaylist` are methods proved against `Download`. `DownloadPlaylist` resets the flag and the process list however the run ends.

Outside effects become inputs. A `Downloader.World` value gives:
- the set of existing paths;
- whether `os.makedirs` or `subprocess.Popen` raises;
- what `extract_info` returns (or the message it raises with), and the files it wrote;
- for each entry index, whether decoding, exporting or removing raises during the MP3 pass.

`prepare_filename` is taken to be the entry itself: an entry is modelled as its prepared path.

What the code does, which the model follows:

- YouTube URLs are recognised by a substring test on the lower-cased URL; the host is never parsed. A query string that mentions `youtu.be` counts.
- In the external-command branch the exit status of the process is never read (`process.wait()`'s result is dropped), so the success dialog is shown whatever the exit status.
- The quality selection is never read by the run.
- A run cannot be cancelled, and no per-item outcome is recorded. The only per-item trace is the "Converting to MP3... (i/n)" status line, modelled as the list of counters shown.
- The run executes in a background thread that `start_download` starts. Here it runs sequentially.
- `is_downloading` is raised by the run itself (line 450), not by `start_download`.

Modules: `Wrappers` (Option), `Text` (string built-ins), `Paths` (`posixpath`), `Rules` (pure decision rules), `Conversion` (the MP3 pass), `Downloader` (the run and the window state).

## Model

| member | source | states |
|---|---|---|
| Text.Strip | app.py:456-458 | the result is `s` with white space (Python's `str.isspace` set) removed from both ends and nothing else: it occurs in `s` with only white space before and after it, and it neither starts nor ends with white space |
| Text.StripEmptyIff | app.py:426 | `not s.strip()` holds exactly when `s` is entirely white space |
| Text.Lower | app.py:404 | `lower()` keeps the length and maps each character through the ASCII case map |
| Text.LowerAppend | app.py:404 | lower-casing distributes over concatenation |
| Text.LowerIdempotent | app.py:404 | lower-casing twice equals lower-casing once |
| Text.ContainsFromOccurs | app.py:404 | the scan for `needle in haystack` from index i succeeds exactly when the needle occurs at some index ≥ i |
| Text.ContainsOccurs | app.py:404 | `needle in haystack` holds exactly when the needle occurs at some index |
| Text.ContainsInfix | app.py:404 | any string embedded in another is `in` it |
| Text.ContainsTrans | app.py:404 | `in` is transitive |
| Text.Contains | app.py:404 | `needle in haystack` as a scan of the start positions; characterised by `Text.ContainsOccurs` |
| Text.EndsWith | app.py:526 | `s.endswith(suffix)`: the suffix occurs at index `len(s) - len(suffix)`, compared case-sensitively; `Paths.IsMp3NameIsEndsWith` ties the ".mp3" test of the pass to it |
| Text.LastBefore | app.py:529 | the `rfind` scan returns -1 or an index holding the character, with no occurrence after it |
| Text.RFind | app.py:529 | `s.rfind(c)` is the `Text.LastBefore` scan over the whole string: -1 or the index of the last `c` |
| Paths.ExtensionIsLastDot | app.py:529 | an extension of `splitext` always starts at the last dot, after the last slash, with a non-dot character between that slash and the dot |
| Paths.IsMp3NameIsEndsWith | app.py:526 | the character-by-character ".mp3" test the pass uses holds exactly when `endswith('.mp3')` does |
| Paths.SplitExt | app.py:529 | root and extension concatenate to the path; the extension is non-empty exactly when the path has one, and it then starts at the extension's dot |
| Paths.Mp3Path | app.py:529 | the conversion target always ends in ".mp3" and differs from the source whenever the source does not end in ".mp3" (so the removal at line 531 never removes the converted file) |
| Paths.Mp3PathReplacesExtension | app.py:529 | with an extension, ".mp3" replaces it |
| Paths.Mp3PathAppendsWithoutExtension | app.py:529 | without an extension, ".mp3" is appended to the whole path |
| Paths.Join | app.py:487 | `os.path.join(a, b)` on POSIX: an absolute `b` is returned unchanged; otherwise the result is exactly `a + b` when `a` is empty or ends in a slash, and `a + "/" + b` otherwise |
| Rules.PlaceholderStrips | app.py:100 | the placeholder text has no white space to strip |
| Rules.PlaceholderIsNoUrl | app.py:406-430 | while the field shows the placeholder, the format box offers only MP3 and Original Format, and validation rejects the URL |
| Rules.AnyIn | app.py:404 | `any(domain in text for domain in domains)` holds exactly when some domain of the list is contained in the text |
| Rules.IsYoutubeUrl | app.py:401-404 | the four-domain `any(...)` test on the lower-cased URL; characterised by `Rules.IsYoutubeUrlIff` and `Rules.EmbeddedDomainCounts` |
| Rules.IsYoutubeUrlIff | app.py:401-404 | a URL is a YouTube URL exactly when its lower-cased text contains "youtube.com" or "youtu.be" (the other two domains add nothing) |
| Rules.IsYoutubeUrlIgnoresCase | app.py:404 | lower-casing the URL first does not change the answer |
| Rules.EmbeddedDomainCounts | app.py:401-404 | the host is not parsed: the domain in any letter case anywhere in the URL (a query string, say) makes it a YouTube URL |
| Rules.FormatOptions | app.py:406-416 | the box offers exactly `["MP3","MP4","Original Format"]` when the stripped URL is non-empty, is not the placeholder and is a YouTube URL, and exactly `["MP3","Original Format"]` otherwise |
| Rules.Reconciled | app.py:418-420 | an offered selection is kept, any other becomes "MP3" |
| Rules.SelectionOffered | app.py:406-420 | after an update the selection is always one of the offered formats, and it is unchanged exactly when it was already offered |
| Rules.Mp4SelectedOnlyWhenOffered | app.py:406-420 | "MP4" survives an update exactly when it was selected and the URL offers it |
| Rules.Validate | app.py:422-434 | accepted exactly when the URL is not blank, not the placeholder, and the directory is not blank; the URL error is reported whenever the URL is bad, the directory error only for a good URL |
| Rules.AcceptedUrlOffersVideoIffYoutube | app.py:406-434 | for an accepted URL, "MP4" is offered exactly when the stripped URL is a YouTube URL |
| Rules.ExternalCommand | app.py:468-474 | the ten words are `python -m yt_dlp`, then `-f bestvideo[ext=mp4]+bestaudio[ext=m4a]/mp4 --merge-output-format mp4` (best MP4 video and M4A audio merged into MP4), then `--output` with the template joined to the directory, which starts with the directory and ends in the template, and the URL last |
| Rules.InProcessOptions | app.py:485-506 | `ignoreerrors` is always set, the whole playlist is fetched as best audio, `outtmpl` is the template joined to the directory (so it starts with the directory and, for a non-empty directory, a slash follows it), and the cookie file is passed exactly when it is named and exists |
| Rules.Route | app.py:467-506 | the external command runs exactly for "MP4" on a YouTube URL; otherwise the in-process options are used |
| Rules.MissingCookieFileIgnored | app.py:496-497 | a cookie path that does not exist routes exactly as no cookie path |
| Rules.WithHint | app.py:549-556 | the message stays a prefix, at most one tip is appended, the tip is chosen by the first matching phrase in the order format / private / unavailable, and the message is unchanged exactly when no phrase matches |
| Rules.CountPresent | app.py:540 | the count of delivered entries is at most their number; it equals their number exactly when none is missing, and is zero exactly when all are missing |
| Rules.CountPresentIsPresentIndices | app.py:540 | the count equals the number of positions that hold an entry |
| Rules.SuccessCount | app.py:540 | the "Files downloaded" figure is the number of positions whose entry is not `None`, and equals the number of entries exactly when none is `None` |
| Conversion.ShouldConvert | app.py:522-526 | the test of the loop: the entry is not `None`, its path is non-empty, exists, and does not end in ".mp3" (case-sensitively) |
| Conversion.Step | app.py:520-534 | one iteration: an entry that does not qualify changes nothing; a decode or export failure changes nothing; otherwise the MP3 appears, and the source is removed unless the removal fails |
| Conversion.ConvertEntry | app.py:521-534 | one iteration on the current files, with its `continue`s as early returns: the files afterwards are `Conversion.Step`'s, and the counter is shown exactly when the entry qualifies |
| Conversion.PassUpTo | app.py:516-534 | the files after the first n iterations: `Conversion.Step` folded over the entries in order, each with its own fault; its properties are the pass lemmas below |
| Conversion.Progress | app.py:518-527 | the status-line counters of the first n iterations, one `i+1` per converting entry; characterised by `Conversion.ProgressCounters` |
| Conversion.ProgressCounters | app.py:518-527 | the counters shown lie in 1..len(entries), strictly increase (each entry visited once, in order, missing ones included) and name exactly the converting entries |
| Conversion.ConvertToMp3 | app.py:516-534 | the loop over all entries, in order, ends with the files and the counters of the specification fold `Conversion.PassUpTo`/`Conversion.Progress` |
| Conversion.Mp3FilesPersist | app.py:526-531 | the pass never removes an ".mp3" file once it exists |
| Conversion.RemovedStaysRemoved | app.py:526-531 | a removed non-MP3 file never reappears |
| Conversion.ConvertedEntryOutcome | app.py:526-531 | a converting entry without a decode or export failure ends the pass with its MP3 present, and, when the removal succeeds, its source gone |
| Conversion.PassFrame | app.py:520-534 | every file the pass adds is some entry's MP3 target, and every file it removes is some entry's path |
| Conversion.FailureActsAsSkip | app.py:521-534 | a decode or export failure on entry j leaves the whole pass exactly as if entry j had been missing |
| Downloader.Download | app.py:455-558 | one run of the `try` body and its `except` branch: a missing directory that `os.makedirs` cannot create fails the run, otherwise the routed branch runs with the directory present; characterised by `Downloader.DelegatedIff`, `Downloader.FailedKeepsMessage`, `Downloader.CompletedRunReport` and the lemmas beside them |
| Downloader.Fetch | app.py:466-482 | the routed branch: the external command is started (or its spawn error fails the run), else the in-process extractor runs |
| Downloader.Extract | app.py:510-513 | an extractor exception fails the run; otherwise the playlist's title and entries, defaulting to "playlist" and no entries, are handed on with the files it wrote |
| Downloader.Extracted | app.py:515-545 | for "MP3" the pass runs over the entries; the report carries the title, the format, the directory and the count of delivered entries |
| Downloader.FailedRun | app.py:547-558 | the `except` branch: the report is the raised message with its tip, and no conversion counters |
| Downloader.DelegatedIff | app.py:461-482 | the external command is started exactly when the directory exists or can be created, the format is "MP4", the URL is a YouTube URL and the process starts |
| Downloader.ConvertsOnlyForMp3 | app.py:515-538 | conversion counters appear only for "MP3", on a completed in-process run |
| Downloader.ReportIgnoresConversionFaults | app.py:520-545 | the final report, including "Files downloaded", does not depend on which conversions failed |
| Downloader.FailedKeepsMessage | app.py:461-558 | each exception fails the run with its own hinted message, in the order the code raises them: the makedirs error when the directory is missing and cannot be created; otherwise, for "MP4" on a YouTube URL, the spawn error (without one the run is delegated); otherwise the extractor's error (without one the run completes) |
| Downloader.CompletedRunReport | app.py:510-545 | a completed in-process run reports the title (default "playlist"), the format, the directory and the number of non-`None` entries; for "MP3" its files and counters are the pass over the entries on the files the extractor left, otherwise those files unchanged and no counters |
| Downloader.PartialPlaylistScenario | app.py:510-545 | a three-item playlist whose middle item is missing completes with "Files downloaded: 2", however its conversions went |
| Downloader.MediaDownloader.constructor | app.py:13-240 | as set at lines 16-18, 100, 173-175 and 240, the window opens with no run in progress, no tracked process, the placeholder in the URL field, and a format box offering only MP3 and Original Format with MP3 selected |
| Downloader.MediaDownloader.UpdateFormatOptions | app.py:406-420 | the box gets the formats for the URL field, the selection is reconciled, and it ends up among the offered formats |
| Downloader.MediaDownloader.RunStripped | app.py:455-558 | the `try` body on the stripped fields produces the run's result, and tracks a process exactly when the external command was started |
| Downloader.MediaDownloader.DownloadPlaylist | app.py:449-564 | the run's result is that of `Download` on the stripped fields, and afterwards `is_downloading` is false and no process is tracked, however the run ended |
| Downloader.MediaDownloader.StartDownload | app.py:436-447 | nothing changes when validation fails or a run is in progress; otherwise the run happens and leaves the flag and process list reset |

## Left out

- The window itself: widget layout, dialogs, the help text, hover effects, file pickers, `clear_all`, the progress bar and status texts other than the conversion counters. These are UI with no decision logic.
- Threading: `start_download` hands the run to a daemon thread. The run is modelled sequentially, so the race between the check at line 440 and the flag set at line 450 is not modelled.
- `on_closing` (lines 566-588): terminating processes on exit is platform plumbing (signals, a timeout, a kill).
- yt-dlp's extraction and `prepare_filename`, pydub's decoding and encoding, and `subprocess.Popen`/`wait` are inputs of the model. The model does not represent what they do inside.
- Text.Lower: models `str.lower` on ASCII letters only. Python also lower-cases other Unicode letters; the four domains are ASCII.
- Paths.SplitExt: models POSIX `os.path.splitext` only. Windows separators and drive letters are not modelled.
- Paths.Join: models POSIX `os.path.join` only. On Windows, where the program also runs (lines 475 and 574 test `os.name == 'nt'`), `ntpath.join` inserts a backslash and treats drive letters; that is not modelled.
- Conversion.Step: an export failure is modelled as writing no file. A partially written MP3 is not modelled.
- Conversion.Step: paths are compared as on a case-sensitive (POSIX) file system. On a case-insensitive one (Windows, macOS), an entry `x.MP3` passes the `.mp3` test, is exported to `x.mp3`, which is the same file, and `os.remove` then deletes the converted file; `Conversion.Mp3FilesPersist` and `Conversion.ConvertedEntryOutcome` do not hold there.
- The `print` of a conversion error (line 533) is console output and is not modelled; the swallowed exception is.
- Downloader.Download: on the external route the files the started command writes are not part of the run's resulting file set.
- Downloader.Download: a playlist dictionary whose `title` or `entries` value is explicitly `None` (rather than absent) is not modelled. An extractor that returns `None` is modelled as an exception, which is what reading `.get` from `None` raises.
- Downloader.MediaDownloader.RunStripped: the external command's exit status is not read, as in the code.
- The quality selection: it is never read by the run.
