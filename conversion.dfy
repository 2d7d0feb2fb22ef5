/**
 * The MP3 pass that follows an in-process download: every entry the extractor
 * returned is visited once, in order; an entry is converted when it is present,
 * its prepared file exists and does not already end in ".mp3"; the converted file
 * replaces the original. A failure inside one conversion is swallowed, and the
 * pass goes on with the next entry.
 *
 * The file system is a set of existing paths; the decoder/encoder is opaque and
 * may raise at one of three points, given per entry index by a fault map.
 */
module Conversion {
  import opened Wrappers
  import opened Text
  import opened Paths

  /** Where a conversion raises: reading the source, writing the MP3, or removing the source. */
  datatype Fault = DecodeFault | ExportFault | RemoveFault

  function FaultAt(faults: map<nat, Fault>, i: nat): Option<Fault> {
    if i in faults then Some(faults[i]) else None
  }

  /** An entry is converted when present, its path non-empty and existing, and not already MP3. */
  predicate ShouldConvert(entry: Option<string>, files: set<string>) {
    entry.Some? && entry.value != "" && entry.value in files && !IsMp3Name(entry.value)
  }

  /** The files after one iteration of the pass. */
  function Step(entry: Option<string>, fault: Option<Fault>, files: set<string>): (r: set<string>)
    ensures !ShouldConvert(entry, files) ==> r == files
    ensures ShouldConvert(entry, files) && fault.None? ==> r == files + {Mp3Path(entry.value)} - {entry.value}
    ensures ShouldConvert(entry, files) && fault == Some(RemoveFault) ==> r == files + {Mp3Path(entry.value)}
    ensures fault == Some(DecodeFault) || fault == Some(ExportFault) ==> r == files
  {
    if !ShouldConvert(entry, files) then files
    else match fault
      case Some(DecodeFault) => files
      case Some(ExportFault) => files
      case Some(RemoveFault) => files + {Mp3Path(entry.value)}
      case None => files + {Mp3Path(entry.value)} - {entry.value}
  }

  /** The files after the first `n` iterations. */
  function PassUpTo(entries: seq<Option<string>>, n: nat, files: set<string>, faults: map<nat, Fault>): set<string>
    requires n <= |entries|
  {
    if n == 0 then files
    else Step(entries[n - 1], FaultAt(faults, n - 1), PassUpTo(entries, n - 1, files, faults))
  }

  /** Whether iteration `i` converts, which is when it shows "Converting to MP3... (i+1/total)". */
  predicate ConvertsAt(entries: seq<Option<string>>, i: nat, files: set<string>, faults: map<nat, Fault>)
    requires i < |entries|
  {
    ShouldConvert(entries[i], PassUpTo(entries, i, files, faults))
  }

  /** The counters `i+1` the status line shows during the first `n` iterations. */
  function Progress(entries: seq<Option<string>>, n: nat, files: set<string>, faults: map<nat, Fault>): seq<nat>
    requires n <= |entries|
  {
    if n == 0 then []
    else Progress(entries, n - 1, files, faults) + (if ConvertsAt(entries, n - 1, files, faults) then [n] else [])
  }

  /**
   * The counters stay within `1..len(entries)`, rise strictly (every entry is visited
   * once, in order, `None` entries included), and name exactly the converting entries.
   */
  lemma {:induction false} ProgressCounters(entries: seq<Option<string>>, n: nat, files: set<string>, faults: map<nat, Fault>)
    requires n <= |entries|
    ensures forall a :: 0 <= a < |Progress(entries, n, files, faults)| ==> 1 <= Progress(entries, n, files, faults)[a] <= n
    ensures forall a, b :: 0 <= a < b < |Progress(entries, n, files, faults)| ==>
              Progress(entries, n, files, faults)[a] < Progress(entries, n, files, faults)[b]
    ensures forall k :: k in Progress(entries, n, files, faults) <==> 1 <= k <= n && ConvertsAt(entries, k - 1, files, faults)
  {
    if n > 0 {
      ProgressCounters(entries, n - 1, files, faults);
    }
  }

  /**
   * One iteration of the pass on the current files: the early returns are the
   * loop's `continue`s, and `converting` says whether the status line showed the
   * entry's counter.
   */
  method ConvertEntry(entry: Option<string>, fault: Option<Fault>, files: set<string>)
    returns (after: set<string>, converting: bool)
    ensures after == Step(entry, fault, files)
    ensures converting == ShouldConvert(entry, files)
  {
    after, converting := files, false;
    if entry.None? {
      return;
    }
    var path := entry.value;
    if path != "" && path in files && !IsMp3Name(path) {
      converting := true;
      if fault == Some(DecodeFault) || fault == Some(ExportFault) {
        return;
      }
      after := after + {Mp3Path(path)};
      if fault == Some(RemoveFault) {
        return;
      }
      after := after - {path};
    }
  }

  /**
   * The pass itself. `after` is the set of files once every entry has been
   * visited; `progress` holds the counters `i+1` the status line showed, each
   * over a total of `|entries|`.
   */
  method ConvertToMp3(entries: seq<Option<string>>, files: set<string>, faults: map<nat, Fault>)
    returns (after: set<string>, progress: seq<nat>)
    ensures after == PassUpTo(entries, |entries|, files, faults)
    ensures progress == Progress(entries, |entries|, files, faults)
  {
    after, progress := files, [];
    for i := 0 to |entries|
      invariant after == PassUpTo(entries, i, files, faults)
      invariant progress == Progress(entries, i, files, faults)
    {
      var converting;
      after, converting := ConvertEntry(entries[i], FaultAt(faults, i), after);
      if converting {
        progress := progress + [i + 1];
      }
    }
  }

  /** The pass never deletes an MP3 file: only non-MP3 sources are removed. */
  lemma {:induction false} Mp3FilesPersist(entries: seq<Option<string>>, m: nat, n: nat, files: set<string>, faults: map<nat, Fault>, p: string)
    requires m <= n <= |entries|
    requires p in PassUpTo(entries, m, files, faults) && IsMp3Name(p)
    ensures p in PassUpTo(entries, n, files, faults)
    decreases n
  {
    if m < n {
      Mp3FilesPersist(entries, m, n - 1, files, faults, p);
    }
  }

  /** The pass only ever creates MP3 files: a removed source that is not MP3 stays removed. */
  lemma {:induction false} RemovedStaysRemoved(entries: seq<Option<string>>, m: nat, n: nat, files: set<string>, faults: map<nat, Fault>, p: string)
    requires m <= n <= |entries|
    requires p !in PassUpTo(entries, m, files, faults) && !IsMp3Name(p)
    ensures p !in PassUpTo(entries, n, files, faults)
    decreases n
  {
    if m < n {
      RemovedStaysRemoved(entries, m, n - 1, files, faults, p);
    }
  }

  /**
   * An entry converted without a fault ends the pass with its MP3 in place and its
   * source gone; with a fault at the removal, the MP3 is still in place.
   */
  lemma ConvertedEntryOutcome(entries: seq<Option<string>>, k: nat, files: set<string>, faults: map<nat, Fault>)
    requires k < |entries| && ConvertsAt(entries, k, files, faults)
    requires FaultAt(faults, k).None? || FaultAt(faults, k) == Some(RemoveFault)
    ensures Mp3Path(entries[k].value) in PassUpTo(entries, |entries|, files, faults)
    ensures FaultAt(faults, k).None? ==> entries[k].value !in PassUpTo(entries, |entries|, files, faults)
  {
    var p := entries[k].value;
    assert Mp3Path(p) in PassUpTo(entries, k + 1, files, faults);
    Mp3FilesPersist(entries, k + 1, |entries|, files, faults, Mp3Path(p));
    if FaultAt(faults, k).None? {
      RemovedStaysRemoved(entries, k + 1, |entries|, files, faults, p);
    }
  }

  /**
   * The pass touches nothing but the entries' own files: whatever appears is the
   * MP3 target of an entry, whatever disappears is the path of an entry.
   */
  lemma {:induction false} PassFrame(entries: seq<Option<string>>, n: nat, files: set<string>, faults: map<nat, Fault>)
    requires n <= |entries|
    ensures forall p :: p in PassUpTo(entries, n, files, faults) && p !in files ==>
              exists k :: 0 <= k < n && entries[k].Some? && p == Mp3Path(entries[k].value)
    ensures forall p :: p in files && p !in PassUpTo(entries, n, files, faults) ==>
              exists k :: 0 <= k < n && entries[k] == Some(p)
  {
    if n > 0 {
      PassFrame(entries, n - 1, files, faults);
    }
  }

  /**
   * Failure isolation: a conversion that raises before writing the MP3 leaves the
   * pass exactly as if that entry had been `None`; every later entry is handled
   * as though nothing had happened.
   */
  lemma {:induction false} FailureActsAsSkip(entries: seq<Option<string>>, j: nat, n: nat, files: set<string>, faults: map<nat, Fault>)
    requires j < |entries| && n <= |entries|
    requires FaultAt(faults, j) == Some(DecodeFault) || FaultAt(faults, j) == Some(ExportFault)
    ensures PassUpTo(entries, n, files, faults) == PassUpTo(entries[j := None], n, files, faults)
  {
    if n > 0 {
      FailureActsAsSkip(entries, j, n - 1, files, faults);
    }
  }
}
