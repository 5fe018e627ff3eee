/** One job's supervision: the downloader command line (spotdl_batch_feeder.py
    lines 37-46) and how the way the subprocess ended shapes the captured
    buffer and return code (lines 49-87). The subprocess itself is an oracle:
    a `Report` says what it printed, what it returned and how supervision
    ended. */
module Supervision {
  import opened Text
  import opened Classification

  datatype Option<T> = None | Some(value: T)

  /** The configuration values the core reads. */
  datatype Config = Config(downloadDir: string, threadCount: nat, timeout: nat, cookiesFile: string)

  const OutputPattern := "{artist} - {title}"

  /** `os.path.join(dir, name)` on a POSIX system. */
  function PosixJoin(dir: string, name: string): (r: string)
    ensures name != [] && name[0] != '/' ==> |r| >= |name| && r[|r| - |name|..] == name
    ensures name != [] && name[0] != '/' ==> StartsWith(r, dir)
    ensures name != [] && name[0] == '/' ==> r == name
  {
    if name != [] && name[0] == '/' then name
    else if dir == [] || dir[|dir| - 1] == '/' then dir + name
    else dir + "/" + name
  }

  /** OUTPUT_TEMPLATE: the download directory joined with the file pattern. */
  function OutputTemplate(config: Config): string {
    PosixJoin(config.downloadDir, OutputPattern)
  }

  /** The downloader's argument list for one URL. */
  function Command(url: string, config: Config): (cmd: seq<string>)
    ensures |cmd| == 16 && cmd[..2] == ["spotdl", "download"] && cmd[2] == url
  {
    ["spotdl", "download", url,
     "--threads", "1",
     "--max-retries", "10",
     "--output", OutputTemplate(config),
     "--overwrite", "skip",
     "--scan-for-songs",
     "--log-level", "DEBUG",
     "--cookie-file", config.cookiesFile]
  }

  /** How a command-line reader sees `args`: the value after the first
      occurrence of `flag` at or after index `from`. */
  function FlagValue(args: seq<string>, flag: string, from: nat): Option<string>
    decreases |args| - from
  {
    if from + 1 >= |args| then None
    else if args[from] == flag then Some(args[from + 1])
    else FlagValue(args, flag, from + 1)
  }

  /** The output template ends with the file pattern's closing brace, so it
      differs from every option name that follows it in the argument list.
      It can still start with "-" when the download directory does. */
  lemma TemplateIsNotFlag(config: Config)
    ensures OutputTemplate(config)[|OutputTemplate(config)| - 1] == '}'
  {
    var t := OutputTemplate(config);
    assert t[|t| - |OutputPattern|..][|OutputPattern| - 1] == t[|t| - 1];
  }

  /** Reading the options back after the URL (index 2) gives exactly what the
      command was built from: one internal thread, ten internal retries, the
      output template, the skip overwrite policy, DEBUG logging and the cookie
      file. */
  lemma CommandOptions(url: string, config: Config)
    ensures FlagValue(Command(url, config), "--threads", 3) == Some("1")
    ensures FlagValue(Command(url, config), "--max-retries", 3) == Some("10")
    ensures FlagValue(Command(url, config), "--output", 3) == Some(OutputTemplate(config))
    ensures FlagValue(Command(url, config), "--overwrite", 3) == Some("skip")
    ensures FlagValue(Command(url, config), "--log-level", 3) == Some("DEBUG")
    ensures FlagValue(Command(url, config), "--cookie-file", 3) == Some(config.cookiesFile)
    ensures Command(url, config)[11] == "--scan-for-songs"
  {
    var cmd := Command(url, config);
    TemplateIsNotFlag(config);
    var t := OutputTemplate(config);
    assert FlagValue(cmd, "--max-retries", 3) == Some("10") by {
      SkipArgs(cmd, "--max-retries", 3, 5);
    }
    assert FlagValue(cmd, "--output", 3) == Some(t) by {
      SkipArgs(cmd, "--output", 3, 7);
    }
    assert FlagValue(cmd, "--overwrite", 3) == Some("skip") by {
      assert t != "--overwrite";
      SkipArgs(cmd, "--overwrite", 3, 9);
    }
    assert FlagValue(cmd, "--log-level", 3) == Some("DEBUG") by {
      assert t != "--log-level";
      SkipArgs(cmd, "--log-level", 3, 12);
    }
    assert FlagValue(cmd, "--cookie-file", 3) == Some(config.cookiesFile) by {
      assert t != "--cookie-file";
      SkipArgs(cmd, "--cookie-file", 3, 14);
    }
  }

  /** Arguments that differ from `flag` are passed over. */
  lemma {:induction false} SkipArgs(args: seq<string>, flag: string, from: nat, to: nat)
    requires from <= to < |args|
    requires forall k :: from <= k < to ==> args[k] != flag
    ensures FlagValue(args, flag, from) == FlagValue(args, flag, to)
    decreases |args| - from
  {
    if from < to {
      SkipArgs(args, flag, from + 1, to);
    }
  }

  /** How supervision of the subprocess ended. */
  datatype Ending =
    | Exited            // the process finished by itself (lines 69-74)
    | TimedOut          // the wall-clock budget ran out and it was killed (lines 76-80)
    | Stopped           // the stop flag was seen and it was terminated (lines 60-62)
    | Raised(message: string) // launching or reading raised; `message` is str(e) (lines 85-87)

  /** What the oracle reports for one job: the text captured before the
      ending, the process's return code, the ending, and whether the stop
      flag was raised while this job was in flight. */
  datatype Report = Report(output: string, code: int, ending: Ending, interrupted: bool)

  function TimeoutLine(timeout: nat): string {
    "TIMEOUT after " + Decimal(timeout) + "s\n"
  }

  function ExceptionLine(message: string): string {
    "EXCEPTION: " + message + "\n"
  }

  /** The buffer and return code a job hands to classification. */
  function Supervise(report: Report, config: Config): (r: (string, int))
    ensures StartsWith(r.0, report.output)
    ensures report.ending.Exited? || report.ending.Stopped? ==> r.0 == report.output
    ensures report.ending.TimedOut? ==> r.0 == report.output + TimeoutLine(config.timeout)
    ensures report.ending.Raised? ==> r.0 == report.output + ExceptionLine(report.ending.message)
    ensures r.1 == if report.ending.Raised? then -999 else report.code
  {
    match report.ending
    case Exited => (report.output, report.code)
    case TimedOut => (report.output + TimeoutLine(config.timeout), report.code)
    case Stopped => (report.output, report.code)
    case Raised(message) => (report.output + ExceptionLine(message), -999)
  }

  /** The job leaves the stop flag set. */
  predicate StopsRun(report: Report) {
    report.interrupted || report.ending.Stopped?
  }

  lemma Absent(s: string, m: string, c: char)
    requires c in m && c !in s
    ensures !Contains(s, m)
  {
    if Contains(s, m) {
      ContainedCharsOccur(s, m, c);
    }
  }

  /** No marker occurs in a text that lacks 'k', 'y' and 'w'. */
  lemma MarkerFree(s: string, m: string)
    requires IsMarker(m) && 'k' !in s && 'y' !in s && 'w' !in s
    ensures !Contains(s, m)
  {
    if m == SkipMarker {
      Absent(s, m, 'k');
    } else if m == ExistsMarker {
      Absent(s, m, 'y');
    } else {
      Absent(s, m, 'w');
    }
  }

  /** The TIMEOUT line adds no marker to the buffer, even across the seam. */
  lemma {:induction false} TimeoutLineAddsNoMarker(output: string, timeout: nat, m: string)
    requires IsMarker(m)
    ensures Contains(output + TimeoutLine(timeout), m) <==> Contains(output, m)
  {
    var line := TimeoutLine(timeout);
    var digits := Decimal(timeout);
    assert 'k' !in digits && 'y' !in digits && 'w' !in digits;
    MarkerFree(line, m);
    AppendUnmatched(output, line, m);
  }

  /** The EXCEPTION line carries exactly the markers of the exception's text. */
  lemma {:induction false} ExceptionLineMarkers(output: string, message: string, m: string)
    requires IsMarker(m)
    ensures Contains(output + ExceptionLine(message), m) <==> Contains(output, m) || Contains(message, m)
  {
    var tail := message + "\n";
    MarkerFree("\n", m);
    AppendUnmatched(message, "\n", m);
    PrependNonStarter(' ', tail, m);
    MarkerFree("EXCEPTION:", m);
    PrependUnmatched("EXCEPTION:", [' '] + tail, m);
    assert ExceptionLine(message) == "EXCEPTION:" + ([' '] + tail);
    AppendUnmatched(output, ExceptionLine(message), m);
  }

  /** A timeout does not force Failed: a timed-out job is classified exactly as
      its captured output and return code would be without the TIMEOUT line. */
  lemma TimedOutOutcome(report: Report, config: Config)
    requires report.ending == TimedOut
    ensures Classify(Supervise(report, config).0, Supervise(report, config).1)
         == Classify(report.output, report.code)
  {
    var buffer := Supervise(report, config).0;
    forall m | IsMarker(m)
      ensures Contains(buffer, m) <==> Contains(report.output, m)
    {
      TimeoutLineAddsNoMarker(report.output, config.timeout, m);
    }
    SameMarkersSameOutcome(buffer, report.output, report.code);
  }

  /** An exception gives return code -999, so the job is Failed unless the
      captured output or the exception's own text carries a marker. */
  lemma RaisedOutcome(report: Report, config: Config)
    requires report.ending.Raised?
    ensures Supervise(report, config).1 == -999
    ensures Classify(Supervise(report, config).0, -999) == Failed
        <==> forall m :: IsMarker(m) ==> !Contains(report.output, m) && !Contains(report.ending.message, m)
  {
    var buffer := Supervise(report, config).0;
    forall m | IsMarker(m)
      ensures Contains(buffer, m) <==> Contains(report.output, m) || Contains(report.ending.message, m)
    {
      ExceptionLineMarkers(report.output, report.ending.message, m);
    }
    assert IsMarker(SkipMarker) && IsMarker(ExistsMarker) && IsMarker(DoneMarker);
  }
}
