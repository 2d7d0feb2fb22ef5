/**
 * The decision rules of the downloader window, each a pure function of the form's
 * text fields: which URLs count as YouTube, which output formats are offered,
 * whether the inputs may start a download, which pipeline runs and with which
 * extractor options, how many files are reported, and which tip an error gets.
 */
module Rules {
  import opened Wrappers
  import opened Text
  import opened Paths

  /**
   * The text the URL field shows until something is typed into it. (Its first
   * letter is written apart: the verifier reads the characters of a literal from
   * its end, and stripping the placeholder needs the first one.)
   */
  const Placeholder: string := "E" + "nter playlist URL (SoundCloud, YouTube, etc.)"

  /** The placeholder has no white space to strip. */
  lemma PlaceholderStrips()
    ensures Strip(Placeholder) == Placeholder
  {
    assert SkipSpace(Placeholder, 0) == 0;
    assert SkipSpaceBack(Placeholder, 0, |Placeholder|) == |Placeholder|;
  }

  const YoutubeDomains: seq<string> := ["youtube.com", "youtu.be", "m.youtube.com", "www.youtube.com"]

  /** `any(domain in text for domain in domains)` */
  function AnyIn(text: string, domains: seq<string>): (r: bool)
    ensures r <==> exists d :: d in domains && Contains(text, d)
  {
    if domains == [] then false
    else
      assert domains[0] in domains;
      assert forall d :: d in domains <==> d == domains[0] || d in domains[1..];
      Contains(text, domains[0]) || AnyIn(text, domains[1..])
  }

  /** A URL is a YouTube URL when its lower-cased text contains one of the domains anywhere. */
  predicate IsYoutubeUrl(url: string) {
    AnyIn(Lower(url), YoutubeDomains)
  }

  /** The two longer domains are redundant: the test is "youtube.com" or "youtu.be" as a substring. */
  lemma IsYoutubeUrlIff(url: string)
    ensures IsYoutubeUrl(url) <==> Contains(Lower(url), "youtube.com") || Contains(Lower(url), "youtu.be")
  {
    var u := Lower(url);
    ContainsInfix("m.", "youtube.com", "");
    ContainsInfix("www.", "youtube.com", "");
    assert "m." + "youtube.com" + "" == "m.youtube.com";
    assert "www." + "youtube.com" + "" == "www.youtube.com";
    if Contains(u, "m.youtube.com") {
      ContainsTrans(u, "m.youtube.com", "youtube.com");
    }
    if Contains(u, "www.youtube.com") {
      ContainsTrans(u, "www.youtube.com", "youtube.com");
    }
  }

  /** The test ignores letter case. */
  lemma IsYoutubeUrlIgnoresCase(url: string)
    ensures IsYoutubeUrl(Lower(url)) == IsYoutubeUrl(url)
  {
    LowerIdempotent(url);
  }

  /**
   * The host is never parsed: a domain written in any letter case anywhere in the
   * URL, in a query string for one, makes it a YouTube URL.
   */
  lemma EmbeddedDomainCounts(before: string, domain: string, after: string)
    requires Lower(domain) == "youtube.com" || Lower(domain) == "youtu.be"
    ensures IsYoutubeUrl(before + domain + after)
  {
    LowerAppend(before + domain, after);
    LowerAppend(before, domain);
    ContainsInfix(Lower(before), Lower(domain), Lower(after));
    IsYoutubeUrlIff(before + domain + after);
  }

  /** The condition under which the format box offers "MP4". */
  predicate OffersVideo(url: string) {
    var u := Strip(url);
    u != [] && u != Placeholder && IsYoutubeUrl(u)
  }

  /** While the URL field shows its placeholder, the format box offers no "MP4" and the form is rejected. */
  lemma PlaceholderIsNoUrl(directory: string)
    ensures FormatOptions(Placeholder) == ["MP3", "Original Format"]
    ensures Validate(Placeholder, directory) == Rejected(MissingUrl)
  {
    PlaceholderStrips();
  }

  /** The values of the format box for the text in the URL field. */
  function FormatOptions(url: string): (r: seq<string>)
    ensures |r| == 2 || |r| == 3
    ensures r[0] == "MP3" && r[|r| - 1] == "Original Format"
    ensures "MP4" in r <==> OffersVideo(url)
    ensures |r| == 2 <==> !OffersVideo(url)
  {
    if OffersVideo(url) then ["MP3", "MP4", "Original Format"] else ["MP3", "Original Format"]
  }

  /** The selection after the format box got new values: kept when still offered, else "MP3". */
  function Reconciled(options: seq<string>, current: string): (r: string)
    ensures current in options ==> r == current
    ensures current !in options ==> r == "MP3"
  {
    if current in options then current else "MP3"
  }

  /** After an update the selection is one of the offered formats. */
  lemma SelectionOffered(url: string, current: string)
    ensures Reconciled(FormatOptions(url), current) in FormatOptions(url)
    ensures Reconciled(FormatOptions(url), current) == current <==> current in FormatOptions(url)
  {
  }

  /** "MP4" stays selected only for a URL for which it is offered. */
  lemma Mp4SelectedOnlyWhenOffered(url: string, current: string)
    ensures Reconciled(FormatOptions(url), current) == "MP4" <==> current == "MP4" && OffersVideo(url)
  {
  }

  datatype InputError = MissingUrl | MissingDirectory {
    /** The text of the error dialog. */
    function Message(): string {
      match this
      case MissingUrl => "Please provide a valid playlist URL."
      case MissingDirectory => "Please select a download directory."
    }
  }

  datatype Verdict = Accepted | Rejected(error: InputError)

  /** The check of the URL and directory fields; the URL is looked at first. */
  function Validate(url: string, directory: string): (r: Verdict)
    ensures r == Accepted <==> !AllSpace(url) && Strip(url) != Placeholder && !AllSpace(directory)
    ensures r == Rejected(MissingUrl) <==> AllSpace(url) || Strip(url) == Placeholder
    ensures r == Rejected(MissingDirectory) <==> !AllSpace(url) && Strip(url) != Placeholder && AllSpace(directory)
  {
    StripEmptyIff(url);
    StripEmptyIff(directory);
    var u := Strip(url);
    if u == [] || u == Placeholder then Rejected(MissingUrl)
    else if Strip(directory) == [] then Rejected(MissingDirectory)
    else Accepted
  }

  /** For an accepted URL the format box offers "MP4" exactly when the URL is a YouTube URL. */
  lemma AcceptedUrlOffersVideoIffYoutube(url: string, directory: string)
    requires Validate(url, directory) == Accepted
    ensures "MP4" in FormatOptions(url) <==> IsYoutubeUrl(Strip(url))
  {
    StripEmptyIff(url);
  }

  /** The name every downloaded file gets inside the chosen directory. */
  const OutputTemplate: string := "%(playlist_index)s - %(title)s.%(ext)s"

  const UserAgent: string := "Mozilla/5.0 (Windows NT 10.0; Win64; x64) AppleWebKit/537.36 (KHTML, like Gecko) Chrome/91.0.4472.124 Safari/537.36"

  /** The options dictionary handed to the in-process extractor. */
  datatype YdlOptions = YdlOptions(
    format: string,
    outtmpl: string,
    noplaylist: bool,
    postprocessors: seq<string>,
    userAgent: string,
    cookiefile: Option<string>,
    ignoreErrors: bool,
    noWarnings: bool,
    extractAudio: bool,
    embedSubs: bool,
    writeAutomaticSub: bool)

  /** The two pipelines: an external command line, or the extractor run in process. */
  datatype Plan = External(command: seq<string>) | InProcess(options: YdlOptions)

  /** The words of the external command before its output option: best MP4 video and M4A audio, merged into MP4. */
  const ExternalProgram: seq<string> := ["python", "-m", "yt_dlp"]
  const VideoFormatOptions: seq<string> := ["-f", "bestvideo[ext=mp4]+bestaudio[ext=m4a]/mp4", "--merge-output-format", "mp4"]

  /** The command line of the external extractor, which merges video and audio into MP4. */
  function ExternalCommand(directory: string, url: string): (r: seq<string>)
    ensures |r| == 10 && r[..3] == ExternalProgram && r[3..7] == VideoFormatOptions && r[9] == url
    ensures r[7] == "--output" && r[8] == Join(directory, OutputTemplate)
    ensures EndsWith(r[8], OutputTemplate) && |directory| <= |r[8]| && r[8][..|directory|] == directory
  {
    ExternalProgram + VideoFormatOptions + ["--output", Join(directory, OutputTemplate), url]
  }

  /**
   * The in-process options. The cookie file is passed only when it is named and
   * exists; a missing one is dropped without a word. Errors on single items are
   * always ignored, so one bad item never stops the playlist.
   */
  function InProcessOptions(directory: string, cookies: string, files: set<string>): (o: YdlOptions)
    ensures o.ignoreErrors && !o.noplaylist && o.format == "bestaudio/best"
    ensures o.cookiefile.Some? <==> cookies != "" && cookies in files
    ensures o.cookiefile.Some? ==> o.cookiefile.value == cookies
    ensures o.outtmpl == Join(directory, OutputTemplate)
    ensures EndsWith(o.outtmpl, OutputTemplate) && |directory| <= |o.outtmpl| && o.outtmpl[..|directory|] == directory
  {
    YdlOptions(
      format := "bestaudio/best",
      outtmpl := Join(directory, OutputTemplate),
      noplaylist := false,
      postprocessors := [],
      userAgent := UserAgent,
      cookiefile := if cookies != "" && cookies in files then Some(cookies) else None,
      ignoreErrors := true,
      noWarnings := false,
      extractAudio := false,
      embedSubs := false,
      writeAutomaticSub := false)
  }

  /** The branch taken for the selected format and the (stripped) URL, directory and cookie path. */
  function Route(format: string, url: string, directory: string, cookies: string, files: set<string>): (r: Plan)
    ensures r.External? <==> format == "MP4" && IsYoutubeUrl(url)
    ensures r.External? ==> r.command == ExternalCommand(directory, url)
    ensures r.InProcess? ==> r.options == InProcessOptions(directory, cookies, files)
  {
    if format == "MP4" && IsYoutubeUrl(url) then External(ExternalCommand(directory, url))
    else InProcess(InProcessOptions(directory, cookies, files))
  }

  /** A cookie path that does not exist is treated exactly as no cookie path. */
  lemma MissingCookieFileIgnored(format: string, url: string, directory: string, cookies: string, files: set<string>)
    requires cookies !in files
    ensures Route(format, url, directory, cookies, files) == Route(format, url, directory, "", files)
  {
  }

  const FormatUnavailable: string := "Requested format is not available"
  const PrivateVideo: string := "Private video"
  const VideoUnavailable: string := "Video unavailable"

  const FormatTip: string := "\n\nTip: Try selecting 'Original Format' instead of MP4, or check if the videos support the requested quality."
  const PrivateTip: string := "\n\nTip: Some videos in the playlist might be private. Try using a cookies file if you have access."
  const UnavailableTip: string := "\n\nTip: Some videos might be region-locked or removed. The downloader will skip these."

  /**
   * The error text shown when a download fails: the message itself, followed by at
   * most one tip, chosen by the first of the three known phrases it contains.
   */
  function WithHint(message: string): (r: string)
    ensures |message| <= |r| && r[..|message|] == message
    ensures r == message || r == message + FormatTip || r == message + PrivateTip || r == message + UnavailableTip
    ensures Contains(message, FormatUnavailable) ==> r == message + FormatTip
    ensures !Contains(message, FormatUnavailable) && Contains(message, PrivateVideo) ==> r == message + PrivateTip
    ensures !Contains(message, FormatUnavailable) && !Contains(message, PrivateVideo) && Contains(message, VideoUnavailable) ==> r == message + UnavailableTip
    ensures r == message <==> !Contains(message, FormatUnavailable) && !Contains(message, PrivateVideo) && !Contains(message, VideoUnavailable)
  {
    if Contains(message, FormatUnavailable) then message + FormatTip
    else if Contains(message, PrivateVideo) then message + PrivateTip
    else if Contains(message, VideoUnavailable) then message + UnavailableTip
    else message
  }

  /** The indices below `n` of the entries the extractor delivered (not `None`). */
  function PresentIndices<T>(entries: seq<Option<T>>, n: int): set<int> {
    set i | 0 <= i < n && i < |entries| && entries[i].Some?
  }

  /** How many of the first `n` entries were delivered. */
  function CountPresent<T>(entries: seq<Option<T>>, n: int): (r: nat)
    requires 0 <= n <= |entries|
    ensures r <= n
    ensures r == n <==> forall i :: 0 <= i < n ==> entries[i].Some?
    ensures r == 0 <==> forall i :: 0 <= i < n ==> entries[i].None?
  {
    if n == 0 then 0 else CountPresent(entries, n - 1) + (if entries[n - 1].Some? then 1 else 0)
  }

  /** `len([e for e in entries if e is not None])`, the "Files downloaded" figure. */
  function SuccessCount<T>(entries: seq<Option<T>>): (r: nat)
    ensures r == |set i | 0 <= i < |entries| && entries[i].Some?|
    ensures r == |entries| <==> forall i :: 0 <= i < |entries| ==> entries[i].Some?
  {
    CountPresentIsPresentIndices(entries, |entries|);
    assert PresentIndices(entries, |entries|) == set i | 0 <= i < |entries| && entries[i].Some?;
    CountPresent(entries, |entries|)
  }

  /** The count is the number of positions holding an entry. */
  lemma {:induction false} CountPresentIsPresentIndices<T>(entries: seq<Option<T>>, n: int)
    requires 0 <= n <= |entries|
    ensures CountPresent(entries, n) == |PresentIndices(entries, n)|
  {
    if n > 0 {
      CountPresentIsPresentIndices(entries, n - 1);
      if entries[n - 1].Some? {
        assert PresentIndices(entries, n) == PresentIndices(entries, n - 1) + {n - 1};
      } else {
        assert PresentIndices(entries, n) == PresentIndices(entries, n - 1);
      }
    }
  }
}
