/** The aggregate the workers share (processed, downloaded and skipped
    counters, the failed-URL list) together with the two append-only logs,
    and what recording one finished job does to them
    (spotdl_batch_feeder.py lines 89-92, 98-105 and 113-115). The source
    updates them in three separate locked blocks per job; this model merges
    the three into one step, so interleavings of two jobs' blocks are not
    represented. */
module Recording {
  import opened Text
  import opened Classification

  /** Each log is the sequence of strings written to it, one per `write`. */
  datatype Ledger = Ledger(
    processed: nat, downloaded: nat, skipped: nat,
    failed: seq<string>,
    trackLog: seq<string>,   // track_log.txt
    failedLog: seq<string>)  // failed_tracks.txt

  /** The delimiter written to the track log before each job's transcript. */
  function Header(url: string): string {
    "\n\n==== " + url + " ====\n"
  }

  /** The failed-track log that lists `urls`, one per line, in order. */
  function FailedLines(urls: seq<string>): (r: seq<string>)
    ensures |r| == |urls|
    ensures forall k :: 0 <= k < |urls| ==> r[k] == urls[k] + "\n"
  {
    if urls == [] then [] else FailedLines(urls[..|urls| - 1]) + [urls[|urls| - 1] + "\n"]
  }

  /** Jobs processed but neither downloaded, skipped nor listed as failed. */
  function Unaccounted(l: Ledger): int {
    l.processed - (l.downloaded + l.skipped + |l.failed|)
  }

  /** The failed-track log lists exactly the failed URLs, in order. */
  predicate LogsAgree(l: Ledger) {
    l.failedLog == FailedLines(l.failed)
  }

  /** The ledger after one job with this URL, captured buffer and return code
      is recorded. */
  function Record(l: Ledger, url: string, buffer: string, code: int): (r: Ledger)
    ensures r.processed == l.processed + 1
    ensures r.skipped + r.downloaded + |r.failed| == l.skipped + l.downloaded + |l.failed| + 1
    ensures r.skipped >= l.skipped && r.downloaded >= l.downloaded
    ensures |r.failed| >= |l.failed| && r.failed[..|l.failed|] == l.failed
  {
    var logged := l.(processed := l.processed + 1, trackLog := l.trackLog + [Header(url), buffer]);
    match Classify(buffer, code)
    case Skipped => logged.(skipped := l.skipped + 1)
    case Downloaded => logged.(downloaded := l.downloaded + 1)
    case Failed => logged.(failed := l.failed + [url], failedLog := l.failedLog + [url + "\n"])
  }

  /** Recording a job bumps exactly the tally its outcome names; every job gets
      its header and transcript in the track log; only a failed job reaches
      the failed list and the failed-track log. */
  lemma RecordOutcome(l: Ledger, url: string, buffer: string, code: int)
    ensures var r := Record(l, url, buffer, code);
            var o := Classify(buffer, code);
            && (r.skipped == l.skipped + 1 <==> o == Skipped)
            && (r.downloaded == l.downloaded + 1 <==> o == Downloaded)
            && (r.failed == l.failed + [url] <==> o == Failed)
            && r.trackLog == l.trackLog + [Header(url), buffer]
            && r.failedLog == l.failedLog + (if o == Failed then [url + "\n"] else [])
  {
  }

  /** A transcript carrying both a skip marker and the completion marker
      counts as skipped only. */
  lemma SkipWinsOverDownload(l: Ledger, url: string, buffer: string, code: int)
    requires SaysSkipped(buffer) && Contains(buffer, DoneMarker)
    ensures var r := Record(l, url, buffer, code);
            r.skipped == l.skipped + 1 && r.downloaded == l.downloaded && r.failed == l.failed
  {
  }

  /** Recording keeps every job accounted for and keeps the failed-track log
      in step with the failed list. */
  lemma RecordKeepsBalance(l: Ledger, url: string, buffer: string, code: int)
    ensures Unaccounted(Record(l, url, buffer, code)) == Unaccounted(l)
    ensures LogsAgree(l) ==> LogsAgree(Record(l, url, buffer, code))
  {
    var f := l.failed + [url];
    assert f[..|f| - 1] == l.failed;
  }
}
