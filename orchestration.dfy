/** The main block (spotdl_batch_feeder.py lines 140-202) as a function:
    load the URLs, run one pass, and, when the stop flag is clear and some
    jobs failed, run a second pass over exactly the failed URLs, after
    clearing the failed list and the failed-track log but not the counters. */
module Orchestration {
  import opened Text
  import opened Supervision
  import opened Classification
  import opened Recording
  import opened Pass
  import opened Loader

  /** Fresh shared state with the loaded URLs queued: zero counters, an
      empty failed list, a truncated failed-track log, and the track log as
      earlier runs left it (it is only ever appended to). */
  function Initial(urls: seq<string>, priorTrackLog: seq<string>): Snapshot {
    Snapshot(urls, false, Ledger(0, 0, 0, [], priorTrackLog, []))
  }

  /** The guard of the retry block (line 174). */
  predicate RetryRuns(first: Snapshot) {
    !first.stop && first.ledger.failed != []
  }

  /** Lines 177-184: truncate the failed-track log, queue the failed URLs in
      order, empty the failed list in place; the counters stay. */
  function RetrySetup(s: Snapshot): Snapshot {
    Snapshot(s.ledger.failed, s.stop, s.ledger.(failed := [], failedLog := []))
  }

  /** The state after the first pass over the queued URLs. */
  function FirstPass(urls: seq<string>, priorTrackLog: seq<string>, oracle: Oracle, config: Config): Snapshot {
    Pool(Initial(urls, priorTrackLog), oracle, config)
  }

  /** The state at the end of a run over the queued URLs. */
  function RunFrom(urls: seq<string>, priorTrackLog: seq<string>, oracle: Oracle, config: Config): Snapshot {
    var first := FirstPass(urls, priorTrackLog, oracle, config);
    if RetryRuns(first) then Pool(RetrySetup(first), oracle, config) else first
  }

  /** The state at the end of a run over the input list's lines. */
  function Run(lines: seq<string>, priorTrackLog: seq<string>, oracle: Oracle, config: Config): Snapshot {
    RunFrom(KeptUrls(lines), priorTrackLog, oracle, config)
  }

  /** The retry queue is the failed list in order; the failed list and its
      log start empty; no counter is reset, so the jobs being retried are
      counted as processed but no longer appear in any tally. */
  lemma RetrySetupQueuesFailed(s: Snapshot)
    ensures var r := RetrySetup(s);
            && r.queue == s.ledger.failed
            && r.ledger.failed == [] && r.ledger.failedLog == [] && LogsAgree(r.ledger)
            && r.ledger.processed == s.ledger.processed
            && r.ledger.downloaded == s.ledger.downloaded
            && r.ledger.skipped == s.ledger.skipped
            && r.ledger.trackLog == s.ledger.trackLog
            && Unaccounted(r.ledger) == Unaccounted(s.ledger) + |s.ledger.failed|
  {
  }

  lemma PoolKeepsBalance(s: Snapshot, oracle: Oracle, config: Config)
    ensures Unaccounted(Pool(s, oracle, config).ledger) == Unaccounted(s.ledger)
    ensures LogsAgree(s.ledger) ==> LogsAgree(Pool(s, oracle, config).ledger)
  {
    if config.threadCount > 0 {
      DrainKeepsBalance(s, oracle, config);
    }
  }

  /** After the first pass every processed job is downloaded, skipped or
      listed as failed; after a retry the retried jobs are counted twice in
      processed, so processed exceeds that sum by the size of the retry queue. */
  lemma RunAccounts(urls: seq<string>, priorTrackLog: seq<string>, oracle: Oracle, config: Config)
    ensures var first := FirstPass(urls, priorTrackLog, oracle, config);
            first.ledger.processed
              == first.ledger.downloaded + first.ledger.skipped + |first.ledger.failed|
    ensures var first := FirstPass(urls, priorTrackLog, oracle, config);
            var r := RunFrom(urls, priorTrackLog, oracle, config);
            r.ledger.processed
              == r.ledger.downloaded + r.ledger.skipped + |r.ledger.failed|
                 + (if RetryRuns(first) then |first.ledger.failed| else 0)
    ensures LogsAgree(RunFrom(urls, priorTrackLog, oracle, config).ledger)
  {
    var first := FirstPass(urls, priorTrackLog, oracle, config);
    PoolKeepsBalance(Initial(urls, priorTrackLog), oracle, config);
    if RetryRuns(first) {
      RetrySetupQueuesFailed(first);
      PoolKeepsBalance(RetrySetup(first), oracle, config);
    }
  }

  /** A pass that takes any URL does so from the queue it was given. */
  lemma PoolFailsOnlyQueued(s: Snapshot, oracle: Oracle, config: Config, u: string)
    requires u in Pool(s, oracle, config).ledger.failed && u !in s.ledger.failed
    ensures u in s.queue
  {
    if config.threadCount > 0 {
      DrainFailsOnlyTakenUrls(s, oracle, config);
      var r := Drain(s, oracle, config);
      var f := |s.ledger.failed|;
      var k := Taken(s, oracle, config);
      assert r.ledger.failed == s.ledger.failed + r.ledger.failed[f..];
      assert u in r.ledger.failed[f..];
      assert multiset(r.ledger.failed[f..])[u] > 0;
      assert u in s.queue[..k];
    }
  }

  /** Every URL left in the failed list at the end was one of the queued URLs. */
  lemma RunFailsOnlyQueued(urls: seq<string>, priorTrackLog: seq<string>, oracle: Oracle, config: Config, u: string)
    requires u in RunFrom(urls, priorTrackLog, oracle, config).ledger.failed
    ensures u in urls
  {
    var first := FirstPass(urls, priorTrackLog, oracle, config);
    if RetryRuns(first) {
      PoolFailsOnlyQueued(RetrySetup(first), oracle, config, u);
      PoolFailsOnlyQueued(Initial(urls, priorTrackLog), oracle, config, u);
    } else {
      PoolFailsOnlyQueued(Initial(urls, priorTrackLog), oracle, config, u);
    }
  }

  /** Every URL in the final failed list came from a line of the input list. */
  lemma RunFailsOnlyInputUrls(lines: seq<string>, priorTrackLog: seq<string>, oracle: Oracle, config: Config, u: string)
    requires u in Run(lines, priorTrackLog, oracle, config).ledger.failed
    ensures exists i :: 0 <= i < |lines| && Strip(lines[i]) == u && IsJobUrl(u)
  {
    RunFailsOnlyQueued(KeptUrls(lines), priorTrackLog, oracle, config, u);
    KeptUrlsMembership(lines, u);
  }

  /** When the stop flag is never raised and there is at least one worker,
      every queued URL is processed once, and every URL of the retry queue
      once more, and the retry pass logs them in the order they failed. */
  lemma RunProcessesEverything(urls: seq<string>, priorTrackLog: seq<string>, oracle: Oracle, config: Config)
    requires config.threadCount > 0
    requires !RunFrom(urls, priorTrackLog, oracle, config).stop
    ensures var first := FirstPass(urls, priorTrackLog, oracle, config);
            var r := RunFrom(urls, priorTrackLog, oracle, config);
            var n := |first.ledger.trackLog|;
            && r.queue == []
            && first.ledger.processed == |urls|
            && r.ledger.processed == |urls| + (if RetryRuns(first) then |first.ledger.failed| else 0)
            && (RetryRuns(first) ==>
                  && |r.ledger.trackLog| == n + 2 * |first.ledger.failed|
                  && forall j :: 0 <= j < |first.ledger.failed| ==>
                    r.ledger.trackLog[n + 2 * j] == Header(first.ledger.failed[j]))
  {
    var s0 := Initial(urls, priorTrackLog);
    var first := FirstPass(urls, priorTrackLog, oracle, config);
    if RetryRuns(first) {
      var s1 := RetrySetup(first);
      PassCompletes(s0, oracle, config);
      PassCompletes(s1, oracle, config);
      DrainLogsEveryJob(s1, oracle, config);
    } else {
      PassCompletes(s0, oracle, config);
    }
  }

  /** A pass whose stop flag stays clear takes the whole queue. */
  lemma PassCompletes(s: Snapshot, oracle: Oracle, config: Config)
    requires config.threadCount > 0
    ensures !Pool(s, oracle, config).stop ==>
              && Pool(s, oracle, config).queue == []
              && Taken(s, oracle, config) == |s.queue|
              && Pool(s, oracle, config).ledger.processed == s.ledger.processed + |s.queue|
  {
    DrainTakesPrefix(s, oracle, config);
  }

  /** The downloader in the retry scenario below: the first attempt
      downloads, the second fails, the third finds the track present, and
      every later attempt downloads. */
  const ScenarioOracle: Oracle := (n: nat, cmd: seq<string>) =>
    if n == 1 then Report("", 1, Exited, false)
    else if n == 2 then Report("already exists", 0, Exited, false)
    else Report("", 0, Exited, false)

  const ScenarioUrls: seq<string> := ["https://a", "https://b", "https://c"]

  /** The retry scenario: of three URLs the first downloads, the second fails
      and the third is already present; the second succeeds on its retry.
      The run ends with two downloads, one skip, no failures and an empty
      failed-track log, after processing four jobs. */
  lemma RetryScenario(config: Config)
    requires config.threadCount > 0
    ensures var r := RunFrom(ScenarioUrls, [], ScenarioOracle, config);
            && r.ledger.processed == 4
            && r.ledger.downloaded == 2
            && r.ledger.skipped == 1
            && r.ledger.failed == []
            && r.ledger.failedLog == []
  {
    ScenarioFirstPass(config);
    var first := FirstPass(ScenarioUrls, [], ScenarioOracle, config);
    ScenarioRetryPass(first, config);
  }

  /** After the first pass one URL has downloaded, one was skipped and the
      second is listed as failed. */
  lemma ScenarioFirstPass(config: Config)
    requires config.threadCount > 0
    ensures var first := FirstPass(ScenarioUrls, [], ScenarioOracle, config);
            && !first.stop
            && first.ledger.processed == 3 && first.ledger.downloaded == 1 && first.ledger.skipped == 1
            && first.ledger.failed == ["https://b"]
  {
    var s2 := ScenarioOpening(config);
    var oracle := ScenarioOracle;
    assert Classify("already exists", 0) == Skipped by {
      assert OccursAt("already exists", ExistsMarker, 0);
    }
    DrainUnfolds(s2, oracle, config);
    var s3 := Step(s2, oracle, config);
    assert s3.ledger.processed == 3 && s3.ledger.skipped == 1 && s3.ledger.failed == ["https://b"];
    assert s3.queue == [] && !s3.stop;
  }

  /** The first two jobs of the scenario: "https://a" downloads and
      "https://b" fails; "https://c" is still queued. */
  lemma ScenarioOpening(config: Config) returns (s2: Snapshot)
    ensures Drain(Initial(ScenarioUrls, []), ScenarioOracle, config) == Drain(s2, ScenarioOracle, config)
    ensures !s2.stop && s2.queue == ["https://c"]
    ensures s2.ledger.processed == 2 && s2.ledger.downloaded == 1 && s2.ledger.skipped == 0
    ensures s2.ledger.failed == ["https://b"]
  {
    var oracle := ScenarioOracle;
    assert Classify("", 0) == Downloaded;
    assert Classify("", 1) == Failed;
    var s0 := Initial(ScenarioUrls, []);
    DrainUnfolds(s0, oracle, config);
    var s1 := Step(s0, oracle, config);
    assert s1.ledger.processed == 1 && s1.ledger.downloaded == 1 && s1.ledger.skipped == 0;
    assert s1.ledger.failed == [] && s1.queue == ["https://b", "https://c"];
    DrainUnfolds(s1, oracle, config);
    s2 := Step(s1, oracle, config);
  }

  /** The retry pass takes the one failed URL, whose fourth attempt downloads. */
  lemma ScenarioRetryPass(first: Snapshot, config: Config)
    requires config.threadCount > 0
    requires !first.stop
    requires first.ledger.processed == 3 && first.ledger.downloaded == 1 && first.ledger.skipped == 1
    requires first.ledger.failed == ["https://b"]
    ensures var r := Pool(RetrySetup(first), ScenarioOracle, config);
            && r.ledger.processed == 4
            && r.ledger.downloaded == 2
            && r.ledger.skipped == 1
            && r.ledger.failed == []
            && r.ledger.failedLog == []
  {
    var oracle := ScenarioOracle;
    assert Classify("", 0) == Downloaded;
    var t0 := RetrySetup(first);
    DrainUnfolds(t0, oracle, config);
    var t1 := Step(t0, oracle, config);
    assert t1.ledger.processed == 4 && t1.ledger.downloaded == 2 && t1.ledger.skipped == 1;
    assert t1.ledger.failed == [] && t1.ledger.failedLog == [] && t1.queue == [];
  }
}
