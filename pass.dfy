/** The worker's drain loop (spotdl_batch_feeder.py lines 30-117) as a
    function of the shared state: while the stop flag is clear and the queue
    is not empty, take the head URL, supervise its download, record the
    result. The subprocess is the oracle, asked once per attempt with the
    attempt's serial number (the processed count when the URL is taken) and
    the command line it is launched with. */
module Pass {
  import opened Supervision
  import opened Classification
  import opened Recording

  /** Everything the workers share: the job queue, the stop flag, the ledger. */
  datatype Snapshot = Snapshot(queue: seq<string>, stop: bool, ledger: Ledger)

  /** What the downloader does on the attempt with this serial number and
      command line. */
  type Oracle = (nat, seq<string>) -> Report

  /** The report for the job at the head of the queue. */
  function HeadReport(s: Snapshot, oracle: Oracle, config: Config): Report
    requires s.queue != []
  {
    oracle(s.ledger.processed, Command(s.queue[0], config))
  }

  /** One iteration: take the head URL, run it, record it under the outcome
      its supervised buffer and code classify to (the other two tallies stay
      as they were), and leave the stop flag set
      exactly when it was already set or was raised meanwhile. */
  function Step(s: Snapshot, oracle: Oracle, config: Config): (r: Snapshot)
    requires s.queue != []
    ensures r.queue == s.queue[1..]
    ensures r.ledger.processed == s.ledger.processed + 1
    ensures r.stop == (s.stop || StopsRun(HeadReport(s, oracle, config)))
    ensures var (b, c) := Supervise(HeadReport(s, oracle, config), config);
            var o := Classify(b, c);
            && (r.ledger.skipped == s.ledger.skipped + 1 <==> o == Skipped)
            && (r.ledger.downloaded == s.ledger.downloaded + 1 <==> o == Downloaded)
            && (r.ledger.failed == s.ledger.failed + [s.queue[0]] <==> o == Failed)
            && r.ledger.trackLog == s.ledger.trackLog + [Header(s.queue[0]), b]
            && (o != Skipped ==> r.ledger.skipped == s.ledger.skipped)
            && (o != Downloaded ==> r.ledger.downloaded == s.ledger.downloaded)
            && (o != Failed ==> r.ledger.failed == s.ledger.failed)
            && r.ledger.failedLog == s.ledger.failedLog + (if o == Failed then [s.queue[0] + "\n"] else [])
  {
    var report := HeadReport(s, oracle, config);
    var (buffer, code) := Supervise(report, config);
    Snapshot(s.queue[1..], s.stop || StopsRun(report), Record(s.ledger, s.queue[0], buffer, code))
  }

  /** The loop run to its end: it leaves only when the stop flag is set or
      the queue is empty, and never lengthens the queue. */
  function Drain(s: Snapshot, oracle: Oracle, config: Config): (r: Snapshot)
    ensures r.stop || r.queue == []
    ensures |r.queue| <= |s.queue|
    ensures s.stop ==> r.stop
    decreases |s.queue|
  {
    if s.stop || s.queue == [] then s else Drain(Step(s, oracle, config), oracle, config)
  }

  /** The number of URLs a drain takes from the queue. */
  function Taken(s: Snapshot, oracle: Oracle, config: Config): nat {
    |s.queue| - |Drain(s, oracle, config).queue|
  }

  /** The loop takes a prefix of the queue, each URL once and in order, and
      processes exactly one job per URL taken. */
  lemma {:induction false} DrainTakesPrefix(s: Snapshot, oracle: Oracle, config: Config)
    ensures var r := Drain(s, oracle, config);
            var k := Taken(s, oracle, config);
            && r.queue == s.queue[k..]
            && r.ledger.processed == s.ledger.processed + k
    decreases |s.queue|
  {
    if !s.stop && s.queue != [] {
      var s' := Step(s, oracle, config);
      DrainTakesPrefix(s', oracle, config);
      assert s'.queue[Taken(s', oracle, config)..] == s.queue[Taken(s, oracle, config)..];
    }
  }

  /** Every URL taken gets its header in the track log, in queue order, two
      entries per job; what the log held before is untouched. */
  lemma DrainLogsEveryJob(s: Snapshot, oracle: Oracle, config: Config)
    ensures var r := Drain(s, oracle, config);
            var k := Taken(s, oracle, config);
            var n := |s.ledger.trackLog|;
            && |r.ledger.trackLog| == n + 2 * k
            && r.ledger.trackLog[..n] == s.ledger.trackLog
            && forall j :: 0 <= j < k ==> r.ledger.trackLog[n + 2 * j] == Header(s.queue[j])
  {
    DrainLogGrowth(s, oracle, config);
    DrainLogHeaders(s, oracle, config);
  }

  /** The track log keeps what it held and gains two entries per job taken. */
  lemma {:induction false} DrainLogGrowth(s: Snapshot, oracle: Oracle, config: Config)
    ensures var r := Drain(s, oracle, config);
            var n := |s.ledger.trackLog|;
            && |r.ledger.trackLog| == n + 2 * Taken(s, oracle, config)
            && r.ledger.trackLog[..n] == s.ledger.trackLog
    decreases |s.queue|
  {
    if !s.stop && s.queue != [] {
      var s' := Step(s, oracle, config);
      DrainLogGrowth(s', oracle, config);
      DrainUnfolds(s, oracle, config);
      var t2 := Drain(s', oracle, config).ledger.trackLog;
      var n := |s.ledger.trackLog|;
      assert t2[..n] == t2[..|s'.ledger.trackLog|][..n];
    }
  }

  /** The j-th URL taken has its header 2j entries after the old end of the log. */
  lemma {:induction false} DrainLogHeaders(s: Snapshot, oracle: Oracle, config: Config)
    ensures var r := Drain(s, oracle, config);
            var n := |s.ledger.trackLog|;
            && |r.ledger.trackLog| == n + 2 * Taken(s, oracle, config)
            && forall j :: 0 <= j < Taken(s, oracle, config) ==> r.ledger.trackLog[n + 2 * j] == Header(s.queue[j])
    decreases |s.queue|
  {
    DrainLogGrowth(s, oracle, config);
    if !s.stop && s.queue != [] {
      var s' := Step(s, oracle, config);
      DrainLogHeaders(s', oracle, config);
      DrainLogGrowth(s', oracle, config);
      DrainUnfolds(s, oracle, config);
      TrackLogExtend(s.ledger.trackLog, s'.ledger.trackLog, Drain(s', oracle, config).ledger.trackLog,
                     s.queue, Supervise(HeadReport(s, oracle, config), config).0, Taken(s', oracle, config));
    }
  }

  /** Bookkeeping for one step of the induction above, on plain sequences. */
  lemma TrackLogExtend(t0: seq<string>, t1: seq<string>, t2: seq<string>,
                       q: seq<string>, buffer: string, k: nat)
    requires k < |q|
    requires t1 == t0 + [Header(q[0]), buffer]
    requires |t2| == |t1| + 2 * k && t2[..|t1|] == t1
    requires forall j :: 0 <= j < k ==> t2[|t1| + 2 * j] == Header(q[1..][j])
    ensures |t2| == |t0| + 2 * (k + 1) && t2[..|t0|] == t0
    ensures forall j :: 0 <= j < k + 1 ==> t2[|t0| + 2 * j] == Header(q[j])
  {
    assert t2[..|t0|] == t2[..|t1|][..|t0|];
    forall j | 0 <= j < k + 1
      ensures t2[|t0| + 2 * j] == Header(q[j])
    {
      if j == 0 {
        assert t2[|t0|] == t2[..|t1|][|t0|];
      } else {
        assert t2[|t0| + 2 * j] == t2[|t1| + 2 * (j - 1)];
        assert q[1..][j - 1] == q[j];
      }
    }
  }

  /** The loop keeps every job accounted for and keeps the failed-track log in
      step with the failed list. */
  lemma {:induction false} DrainKeepsBalance(s: Snapshot, oracle: Oracle, config: Config)
    ensures Unaccounted(Drain(s, oracle, config).ledger) == Unaccounted(s.ledger)
    ensures LogsAgree(s.ledger) ==> LogsAgree(Drain(s, oracle, config).ledger)
    decreases |s.queue|
  {
    if !s.stop && s.queue != [] {
      var report := HeadReport(s, oracle, config);
      RecordKeepsBalance(s.ledger, s.queue[0], Supervise(report, config).0, Supervise(report, config).1);
      DrainKeepsBalance(Step(s, oracle, config), oracle, config);
    }
  }

  /** The failed list only grows, and what it gains are URLs the loop took,
      none more often than it was taken. */
  lemma {:induction false} DrainFailsOnlyTakenUrls(s: Snapshot, oracle: Oracle, config: Config)
    ensures var r := Drain(s, oracle, config);
            var f := |s.ledger.failed|;
            && |r.ledger.failed| >= f
            && r.ledger.failed[..f] == s.ledger.failed
            && multiset(r.ledger.failed[f..]) <= multiset(s.queue[..Taken(s, oracle, config)])
    decreases |s.queue|
  {
    if !s.stop && s.queue != [] {
      var s' := Step(s, oracle, config);
      DrainFailsOnlyTakenUrls(s', oracle, config);
      var gained := StepFailedGrowth(s, oracle, config);
      DrainUnfolds(s, oracle, config);
      FailedExtend(s.ledger.failed, s'.ledger.failed, Drain(s', oracle, config).ledger.failed,
                   gained, s.queue[0], s'.queue[..Taken(s', oracle, config)]);
    }
  }

  /** A drain that takes the head continues as a drain of what follows it. */
  lemma DrainUnfolds(s: Snapshot, oracle: Oracle, config: Config)
    requires !s.stop && s.queue != []
    ensures var s' := Step(s, oracle, config);
            && Drain(s, oracle, config) == Drain(s', oracle, config)
            && Taken(s, oracle, config) == Taken(s', oracle, config) + 1
            && s.queue[..Taken(s, oracle, config)] == [s.queue[0]] + s'.queue[..Taken(s', oracle, config)]
  {
    var s' := Step(s, oracle, config);
    var k' := Taken(s', oracle, config);
    assert s.queue[..k' + 1] == [s.queue[0]] + s'.queue[..k'];
  }

  /** Bookkeeping for one step of the induction above, on plain sequences. */
  lemma FailedExtend(f0: seq<string>, f1: seq<string>, f2: seq<string>,
                     gained: seq<string>, url: string, rest: seq<string>)
    requires f1 == f0 + gained && (gained == [] || gained == [url])
    requires |f2| >= |f1| && f2[..|f1|] == f1
    requires multiset(f2[|f1|..]) <= multiset(rest)
    ensures |f2| >= |f0| && f2[..|f0|] == f0
    ensures multiset(f2[|f0|..]) <= multiset([url] + rest)
  {
    assert f2[..|f0|] == f2[..|f1|][..|f0|];
    assert f2[|f0|..] == gained + f2[|f1|..];
  }

  /** One step adds to the failed list at most the URL it took. */
  lemma StepFailedGrowth(s: Snapshot, oracle: Oracle, config: Config) returns (gained: seq<string>)
    requires s.queue != []
    ensures Step(s, oracle, config).ledger.failed == s.ledger.failed + gained
    ensures gained == [] || gained == [s.queue[0]]
  {
    var url := s.queue[0];
    var report := HeadReport(s, oracle, config);
    RecordOutcome(s.ledger, url, Supervise(report, config).0, Supervise(report, config).1);
    if Classify(Supervise(report, config).0, Supervise(report, config).1) == Failed {
      gained := [url];
    } else {
      gained := [];
    }
  }

  /** Once the stop flag is set no URL is taken, and a job during which it is
      raised (its supervision terminated or not) is still recorded before the
      loop leaves. */
  lemma DrainHonoursStop(s: Snapshot, oracle: Oracle, config: Config)
    ensures s.stop ==> Drain(s, oracle, config) == s
    ensures !s.stop && s.queue != [] && StopsRun(HeadReport(s, oracle, config)) ==>
              var report := HeadReport(s, oracle, config);
              Drain(s, oracle, config)
                == Snapshot(s.queue[1..], true,
                            Record(s.ledger, s.queue[0], Supervise(report, config).0, Supervise(report, config).1))
  {
  }

  /** Draining again changes nothing: a second worker that starts after the
      first has left finds the queue empty or the stop flag set. */
  lemma DrainIdempotent(s: Snapshot, oracle: Oracle, config: Config)
    ensures Drain(Drain(s, oracle, config), oracle, config) == Drain(s, oracle, config)
  {
  }

  /** A pass of THREAD_COUNT workers started one after another (lines 157-169),
      taken one after another. In the source the workers' jobs run
      concurrently and only their updates of the shared state are serialised
      by the lock; here the first worker drains the queue, and each later one
      finds it empty or the stop flag set. */
  function Pool(s: Snapshot, oracle: Oracle, config: Config): (r: Snapshot)
    ensures config.threadCount == 0 ==> r == s
    ensures config.threadCount > 0 ==> r.stop || r.queue == []
  {
    if config.threadCount == 0 then s else Drain(s, oracle, config)
  }
}
