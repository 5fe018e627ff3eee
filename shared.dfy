/** The imperative program: the shared Manager objects as one object whose
    fields the worker updates in place, the worker loop, the pool of workers,
    URL loading, the retry set-up and the main block. Each method is proved
    to leave exactly the state the functions of Pass and Orchestration
    describe. */
module Shared {
  import opened Text
  import opened Classification
  import opened Supervision
  import opened Recording
  import opened Pass
  import opened Loader
  import opened Orchestration

  /** The queue, the stop event, the three counters, the failed-URL list and
      the two log files, all shared between the workers (lines 141-151). */
  class SharedState {
    var queue: seq<string>
    var stop: bool
    var processed: nat
    var downloaded: nat
    var skipped: nat
    var failed: seq<string>
    var trackLog: seq<string>
    var failedLog: seq<string>

    /** The shared state as a value. */
    function Snap(): Snapshot
      reads this
    {
      Snapshot(queue, stop, Ledger(processed, downloaded, skipped, failed, trackLog, failedLog))
    }

    /** Zeroed counters, an empty failed list and queue, a clear stop event,
        a truncated failed-track log (line 142) and the track log as it was. */
    constructor (priorTrackLog: seq<string>)
      ensures Snap() == Initial([], priorTrackLog)
    {
      queue := [];
      stop := false;
      processed, downloaded, skipped := 0, 0, 0;
      failed := [];
      trackLog := priorTrackLog;
      failedLog := [];
    }

    /** `load_urls` (lines 120-125): enqueue each stripped line that starts
        with "http", in file order. */
    method LoadUrls(lines: seq<string>)
      modifies this
      ensures Snap() == old(Snap()).(queue := old(queue) + KeptUrls(lines))
    {
      for i := 0 to |lines|
        invariant Snap() == old(Snap()).(queue := old(queue) + KeptUrls(lines[..i]))
      {
        var url := Strip(lines[i]);
        if IsJobUrl(url) {
          queue := queue + [url];
        }
        assert lines[..i + 1][..i] == lines[..i];
      }
      assert lines[..|lines|] == lines;
    }

    /** The three locked blocks of one job (lines 89-92, 98-105, 113-115):
        append the header and transcript to the track log, count the job,
        and list a failed URL in the failed list and the failed-track log. */
    method Record(url: string, buffer: string, code: int)
      modifies this
      ensures Snap() == old(Snap()).(ledger := Recording.Record(old(Snap()).ledger, url, buffer, code))
    {
      trackLog := trackLog + [Header(url), buffer];
      var outcome := Classify(buffer, code);
      processed := processed + 1;
      if outcome == Skipped {
        skipped := skipped + 1;
      } else if outcome == Downloaded {
        downloaded := downloaded + 1;
      } else {
        failed := failed + [url];
      }
      if outcome == Failed {
        failedLog := failedLog + [url + "\n"];
      }
    }

    /** The retry set-up (lines 177-184): truncate the failed-track log, copy
        the failed list into a new queue, then empty the list in place. */
    method BeginRetry()
      modifies this
      ensures Snap() == RetrySetup(old(Snap()))
    {
      failedLog := [];
      var retryQueue: seq<string> := [];
      for i := 0 to |failed|
        invariant retryQueue == failed[..i]
      {
        retryQueue := retryQueue + [failed[i]];
      }
      assert failed[..|failed|] == failed;
      failed := [];
      queue := retryQueue;
    }
  }

  /** `worker` (lines 26-117): until the stop event is set or the queue is
      empty, take the head URL, run the downloader on it, and record the
      result. The oracle stands for the subprocess and for an interrupt
      arriving while the job is in flight. */
  method Worker(shared: SharedState, oracle: Oracle, config: Config)
    modifies shared
    ensures shared.Snap() == Drain(old(shared.Snap()), oracle, config)
  {
    while !shared.stop && shared.queue != []
      invariant Drain(shared.Snap(), oracle, config) == Drain(old(shared.Snap()), oracle, config)
      decreases |shared.queue|
    {
      ghost var before := shared.Snap();
      var url := shared.queue[0];
      shared.queue := shared.queue[1..];
      var cmd := Command(url, config);
      var report := oracle(shared.processed, cmd);
      var (buffer, code) := Supervise(report, config);
      shared.Record(url, buffer, code);
      if StopsRun(report) {
        shared.stop := true;
      }
      assert shared.Snap() == Step(before, oracle, config);
    }
  }

  /** One pass: THREAD_COUNT workers, started and joined (lines 157-169). */
  method RunPool(shared: SharedState, oracle: Oracle, config: Config)
    modifies shared
    ensures shared.Snap() == Pool(old(shared.Snap()), oracle, config)
  {
    for i := 0 to config.threadCount
      invariant shared.Snap() == if i == 0 then old(shared.Snap()) else Drain(old(shared.Snap()), oracle, config)
    {
      Worker(shared, oracle, config);
      DrainIdempotent(old(shared.Snap()), oracle, config);
    }
  }

  /** The main block (lines 140-202): load, one pass, and the retry pass when
      the stop event is clear and some URL failed. */
  method RunBatch(lines: seq<string>, priorTrackLog: seq<string>, oracle: Oracle, config: Config)
    returns (result: Snapshot)
    ensures result == Run(lines, priorTrackLog, oracle, config)
  {
    var shared := new SharedState(priorTrackLog);
    shared.LoadUrls(lines);
    assert shared.Snap() == Initial(KeptUrls(lines), priorTrackLog);
    RunPool(shared, oracle, config);
    ghost var first := shared.Snap();
    assert first == FirstPass(KeptUrls(lines), priorTrackLog, oracle, config);
    if !shared.stop && shared.failed != [] {
      shared.BeginRetry();
      RunPool(shared, oracle, config);
      assert shared.Snap() == Pool(RetrySetup(first), oracle, config);
    }
    result := shared.Snap();
  }
}
