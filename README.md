# spotdl batch feeder — a Dafny model of its job bookkeeping

`spotdl_batch_feeder.py` reads a list of URLs and hands each one to a pool of
worker processes. Each worker runs `spotdl download <url> …` under supervision
and classifies the result as Skipped, Downloaded or Failed. It records the
result in shared counters, a shared failed-URL list and two log files
(`track_log.txt` and `failed_tracks.txt`). After the pass, if nothing stopped
the run and some URLs failed, a second pass retries exactly the failed URLs.

This project models that bookkeeping sequentially. In the script each job
takes the one lock three separate times: to write the track log (lines 89-92),
to update the counters and the failed list (lines 98-105), and, for a failed
job, to append to the failed-track log (lines 113-115). The model merges the
three into one atomic step per job (see "## Left out"). It is laid out as
follows:

- `text.dfy` (`Text`): the Python string operations the script relies on. It
  has the `in` substring test, `strip()`, `startswith` and the decimal
  rendering of an integer in an f-string.
- `classification.dfy` (`Classification`): the three outcome flags of lines
  94-96, as one function.
- `supervision.dfy` (`Supervision`):
  - the downloader's argument list;
  - the output template;
  - the way supervision of the subprocess ends. The subprocess is an oracle
    that returns a `Report` (captured output, return code, ending, and whether
    the stop event was set meanwhile);
  - the TIMEOUT and EXCEPTION lines that an abnormal ending appends.
- `recording.dfy` (`Recording`): the counters, the failed list and the two
  logs as one value, and what the three locked blocks of a job do to it.
- `pass.dfy` (`Pass`): the worker's loop as a function of the shared state.
- `loader.dfy` (`Loader`): which input lines `load_urls` enqueues.
- `orchestration.dfy` (`Orchestration`): the main block as a function (load,
  first pass, retry set-up, retry pass) and the run-level properties.
- `shared.dfy` (`Shared`): the imperative program. The Manager's shared objects
  are one `SharedState` object, with the queue, stop event, counters, failed
  list and logs as fields. Methods update these fields in place: `load_urls`,
  the locked recording blocks, the retry set-up, `worker`, the pool of workers
  and the main block. Each method is proved to leave exactly the state that
  the functions above describe.

Each log is a sequence of strings, one element per `write` call. The model
runs the workers one after another, so the first drains the queue and each
later one finds it empty or the stop event set (`Pass.DrainIdempotent`; see
"## Left out" for the concurrency this leaves out).

The oracle takes two arguments:
- the attempt's serial number, which is the processed count when the URL is
  taken;
- the command line.

It answers with everything the subprocess, the clock and an interrupt decide
for that job. The stop event is set when the report says it was raised while
the job was in flight, or when supervision ended by seeing it (lines 60-62).
It is never cleared.

A timed-out job, or one whose supervision raised, is not forced to Failed: the
code decides only from the buffer and the return code.
- A timeout appends a line that contains no marker, so a timed-out job is
  classified as its captured output and return code say
  (`Supervision.TimedOutOutcome`).
- An exception sets the code to -999, so the job is Failed unless the output
  or the exception's text carries a marker (`Supervision.RaisedOutcome`).

## Model

| member | source | states |
|---|---|---|
| `Classification.Classify` | spotdl_batch_feeder.py:94-96 | Skipped exactly when "Skipping" or "already exists" occurs (case-sensitive); Downloaded exactly when neither occurs and either "Downloaded" occurs or the code is 0; Failed exactly when no marker occurs and the code is not 0 |
| `Classification.SameMarkersSameOutcome` | spotdl_batch_feeder.py:94-96 | the outcome depends on the buffer only through which of the three markers it contains |
| `Classification.ClassifyExamples` | spotdl_batch_feeder.py:94-96 | "…already exists…",0 is Skipped; "Downloaded …",0 is Downloaded; "",1 and "",-999 are Failed; "",0 is Downloaded; a buffer with both "Skipping" and "Downloaded" is Skipped |
| `Supervision.PosixJoin` | spotdl_batch_feeder.py:23 | joining a relative name onto the directory gives a path that starts with the directory and ends with the name; an absolute name is the result on its own |
| `Supervision.OutputTemplate` | spotdl_batch_feeder.py:23 | the download directory joined with "{artist} - {title}"; its shape is stated by `Supervision.PosixJoin` and `Supervision.TemplateIsNotFlag` |
| `Supervision.TemplateIsNotFlag` | spotdl_batch_feeder.py:23 | the output template ends with the pattern's closing brace, so it differs from every option name that follows it in the argument list (a download directory starting with "-" still makes it start with "-") |
| `Supervision.Command` | spotdl_batch_feeder.py:37-46 | the argument list has 16 entries, beginning "spotdl", "download", then the URL |
| `Supervision.CommandOptions` | spotdl_batch_feeder.py:37-46 | reading the options after the URL gives --threads 1, --max-retries 10, --output the template, --overwrite skip, --log-level DEBUG and --cookie-file the configured file, and --scan-for-songs is passed |
| `Supervision.Supervise` | spotdl_batch_feeder.py:49-87 | a normal or stopped ending hands over exactly what the process printed; a timeout appends exactly the TIMEOUT line and an exception exactly the EXCEPTION line with its message; the code is -999 after an exception and the process's return code otherwise |
| `Supervision.TimeoutLine` | spotdl_batch_feeder.py:79 | the line a timeout appends, "TIMEOUT after <seconds>s"; `Supervision.TimeoutLineAddsNoMarker` states that it carries no marker |
| `Supervision.ExceptionLine` | spotdl_batch_feeder.py:86 | the line an exception appends, "EXCEPTION: <str(e)>"; `Supervision.ExceptionLineMarkers` states which markers it carries |
| `Supervision.TimeoutLineAddsNoMarker` | spotdl_batch_feeder.py:76-80 | appending the TIMEOUT line neither adds nor removes a marker, even across the join |
| `Supervision.ExceptionLineMarkers` | spotdl_batch_feeder.py:85-87 | after the EXCEPTION line the buffer contains a marker exactly when the output or the exception's text contains it |
| `Supervision.TimedOutOutcome` | spotdl_batch_feeder.py:76-96 | a timed-out job is classified exactly as its captured output and return code would be without the TIMEOUT line |
| `Supervision.RaisedOutcome` | spotdl_batch_feeder.py:85-96 | after an exception the code is -999, and the job is Failed exactly when neither the output nor the exception's text carries a marker |
| `Text.Strip` | spotdl_batch_feeder.py:123 | Python's `strip()`; `Text.StripShape` characterises its result |
| `Text.StripShape` | spotdl_batch_feeder.py:123 | what strip() returns occurs in the line with only whitespace before and after it, and neither starts nor ends with whitespace |
| `Text.Decimal` | spotdl_batch_feeder.py:79 | the rendered timeout is a non-empty string of digits with no leading zero (it starts with '0' exactly when the number is 0) |
| `Text.DecimalRoundTrip` | spotdl_batch_feeder.py:79 | reading the rendered number back gives the number |
| `Recording.Header` | spotdl_batch_feeder.py:91 | the delimiter "\n\n==== url ====\n" written before each transcript; `Pass.DrainLogsEveryJob` places it for every job taken |
| `Recording.FailedLines` | spotdl_batch_feeder.py:113-115 | the failed-track log for a list of URLs has one line per URL, in order, each ending in a newline |
| `Recording.Record` | spotdl_batch_feeder.py:89-115 | processed grows by one; skipped + downloaded + the failed list's length grows by exactly one; no tally shrinks; the failed list keeps its old entries as a prefix |
| `Recording.RecordOutcome` | spotdl_batch_feeder.py:89-115 | skipped, downloaded or the failed list grows exactly when the outcome names it; the track log gains the header and the buffer for every job; the failed-track log gains url+"\n" exactly for a failed job |
| `Recording.SkipWinsOverDownload` | spotdl_batch_feeder.py:94-103 | a buffer with a skip marker and "Downloaded" raises only the skipped count |
| `Recording.RecordKeepsBalance` | spotdl_batch_feeder.py:98-115 | processed minus (downloaded + skipped + failed) is unchanged, and the failed-track log keeps listing exactly the failed URLs |
| `Pass.Step` | spotdl_batch_feeder.py:30-117 | one iteration removes the head of the queue and counts one job; skipped, downloaded or the failed list grows exactly when `Classify` of the supervised buffer and code names that outcome, and the other two stay unchanged; the track log gains the head URL's header and the buffer; the failed-track log gains url+"\n" exactly for a failed job; the stop event ends set exactly when it was set or the job raised it |
| `Pass.Drain` | spotdl_batch_feeder.py:30-34 | the loop ends with the stop event set or the queue empty, and never lengthens the queue |
| `Pass.DrainTakesPrefix` | spotdl_batch_feeder.py:30-34 | the loop takes a prefix of the queue, each URL once and in order, and processes exactly one job per URL taken |
| `Pass.DrainLogsEveryJob` | spotdl_batch_feeder.py:89-92 | the track log keeps its old contents and gains two entries per job, the header of the j-th URL taken at position 2j after them |
| `Pass.DrainKeepsBalance` | spotdl_batch_feeder.py:98-115 | the loop keeps every job accounted for and keeps the failed-track log in step with the failed list |
| `Pass.DrainFailsOnlyTakenUrls` | spotdl_batch_feeder.py:98-105 | the failed list only grows at its end, and what it gains are URLs the loop took, none more often than it was taken |
| `Pass.DrainHonoursStop` | spotdl_batch_feeder.py:30-62 | with the stop event set no URL is taken; a job during which it is raised is still recorded, and then the loop ends |
| `Pass.DrainIdempotent` | spotdl_batch_feeder.py:30-34 | a worker started after another has finished finds nothing to do |
| `Pass.Pool` | spotdl_batch_feeder.py:157-169 | with no workers nothing changes; otherwise the pass ends with the stop event set or the queue empty |
| `Loader.KeptLine` | spotdl_batch_feeder.py:123-125 | a line contributes at most one URL, and only one that starts with "http" |
| `Loader.KeptUrls` | spotdl_batch_feeder.py:120-125 | no more URLs than lines, each starting with "http" |
| `Loader.KeptUrlsAppend` | spotdl_batch_feeder.py:120-125 | loading two stretches of lines one after the other enqueues both results in file order |
| `Loader.KeptUrlsMembership` | spotdl_batch_feeder.py:120-125 | a URL is enqueued exactly when some line strips to it and it starts with "http" |
| `Loader.KeptUrlsExample` | spotdl_batch_feeder.py:120-125 | a URL line, a blank line, a padded URL and an ftp line enqueue the two stripped http URLs in order |
| `Orchestration.RetryRuns` | spotdl_batch_feeder.py:174 | the retry pass runs exactly when the stop event is clear and the failed list is non-empty; `Orchestration.RunAccounts` and `Orchestration.RunProcessesEverything` state what it then does |
| `Orchestration.RetrySetup` | spotdl_batch_feeder.py:177-182 | the state the retry pass starts from; `Orchestration.RetrySetupQueuesFailed` states its properties |
| `Orchestration.RunFrom` | spotdl_batch_feeder.py:156-202 | the first pass over the loaded URLs and the guarded retry pass; `Orchestration.RunAccounts`, `Orchestration.RunFailsOnlyQueued` and `Orchestration.RunProcessesEverything` state its properties |
| `Orchestration.Run` | spotdl_batch_feeder.py:140-202 | the whole main block over the input lines; `Orchestration.RunFailsOnlyInputUrls` states its properties and `Shared.RunBatch` is proved equal to it |
| `Orchestration.RetrySetupQueuesFailed` | spotdl_batch_feeder.py:177-182 | the retry queue is the failed list in order; the failed list and failed-track log are emptied; no counter and not the track log changes; the unaccounted count grows by the number of URLs retried |
| `Orchestration.PoolKeepsBalance` | spotdl_batch_feeder.py:157-169 | a pass keeps every job accounted for and the failed-track log in step with the failed list |
| `Orchestration.RunAccounts` | spotdl_batch_feeder.py:174-182 | after the first pass processed = downloaded + skipped + failed; after a retry processed = downloaded + skipped + failed + the number retried; the failed-track log lists exactly the failed URLs at the end |
| `Orchestration.PoolFailsOnlyQueued` | spotdl_batch_feeder.py:157-169 | a URL a pass adds to the failed list was in that pass's queue |
| `Orchestration.RunFailsOnlyQueued` | spotdl_batch_feeder.py:174-184 | every URL failed at the end of the run was among the loaded URLs |
| `Orchestration.RunFailsOnlyInputUrls` | spotdl_batch_feeder.py:120-125 | every URL failed at the end is a stripped input line starting with "http" |
| `Orchestration.PassCompletes` | spotdl_batch_feeder.py:30-34 | a pass with at least one worker that ends with the stop event clear has taken every queued URL and processed one job for each |
| `Orchestration.RunProcessesEverything` | spotdl_batch_feeder.py:140-202 | with a worker and no stop, every loaded URL is processed once and every retried URL once more, and the retry pass logs the retried URLs in the order they failed |
| `Orchestration.RetryScenario` | spotdl_batch_feeder.py:174-202 | with A downloaded, B failed, C already present and B succeeding on retry, the run ends with 4 processed, 2 downloaded, 1 skipped, no failures and an empty failed-track log |
| `Shared.SharedState.constructor` | spotdl_batch_feeder.py:142-151 | zero counters, an empty queue and failed list, a clear stop event, a truncated failed-track log, the track log as earlier runs left it |
| `Shared.SharedState.LoadUrls` | spotdl_batch_feeder.py:120-125 | the queue gains exactly the URLs `Loader.KeptUrls` selects, in order; nothing else changes |
| `Shared.SharedState.Record` | spotdl_batch_feeder.py:89-115 | the shared state becomes exactly the ledger `Recording.Record` gives, with queue and stop event unchanged |
| `Shared.SharedState.BeginRetry` | spotdl_batch_feeder.py:177-184 | the shared state becomes `Orchestration.RetrySetup` of the old state |
| `Shared.Worker` | spotdl_batch_feeder.py:26-117 | the worker leaves the shared state exactly as `Pass.Drain` of the old state |
| `Shared.RunPool` | spotdl_batch_feeder.py:157-169 | starting and joining THREAD_COUNT workers leaves the shared state as `Pass.Pool` of the old state |
| `Shared.RunBatch` | spotdl_batch_feeder.py:140-202 | the main block ends in exactly the state `Orchestration.Run` describes |

## Left out

- Running the downloader (lines 51-83): `subprocess.Popen`, reading lines, `poll`, `terminate`, `kill` and `wait` are replaced by the oracle's `Report`. The oracle says what output was captured, the return code, and whether supervision ended by exiting, timing out, seeing the stop event or raising. The model assumes every supervision ends. In the source the stop check (line 60) and the timeout check (line 76) run only after `readline()` (line 64) returns, so a live process that never prints a newline is never timed out and never sees the stop event; the worker then blocks for good.
- Wall-clock time (lines 57, 76, 117, 166, 195): the elapsed-time check and every `time.sleep` are left out. A timeout is only an ending that appends the TIMEOUT line.
- Concurrency (lines 144-169, 186-198): real processes, `start`/`join` and the lock are left out. The model runs workers one after another with every update atomic. So it does not capture how concurrent jobs interleave, nor the order of the failed list under real concurrency.
- Interrupts and shutdown (lines 134-137, 204-208): the `KeyboardInterrupt` handler, `terminate_all_processes` and `sys.exit` are left out. Only the stop event is modelled, as the oracle's `interrupted` flag. Once set it is never cleared.
- Configuration and files (lines 12-22, 127-132, 141-142): JSON config loading and its defaults, `os.makedirs`, opening and truncating files, `print_summary` and every `print` are left out. The logs are sequences of strings, and the input file is given as its sequence of lines, each possibly ending in a newline.
- `Supervision.PosixJoin`: models `os.path.join` for POSIX paths only. Windows drive letters and separators are not modelled.
- `Supervision.Supervise`: the timeout is a whole number of seconds. A fractional `spotdl_timeout` value, and how Python renders it in the TIMEOUT line, are not modelled.
- Recording as one step (lines 89-115): the source takes the lock three separate times per job, with classification and a print between them. The model merges them into one atomic step. With several workers, two failed jobs can interleave: A appends to the failed list, then B runs lines 98-115 before A reaches line 113. The failed list then reads A, B while the failed-track log reads B, A. After the join, and provided no write at lines 113-115 raised (next line), the source only guarantees that the failed list and the failed-track log agree as multisets. `Recording.RecordKeepsBalance`, `Pass.DrainKeepsBalance`, `Orchestration.PoolKeepsBalance` and the third ensures of `Orchestration.RunAccounts` state the agreement in order, which holds of the sequential model only.
- Exceptions outside the supervision `try` (lines 50-87): the prints at lines 36, 47 and 108-112 and the log writes at lines 89-92 and 113-115 sit outside it. If one of them raises, for instance printing an emoji to a stdout that cannot encode it or failing to open a log file, that worker process dies. A raise at lines 36, 47 or 89-92 leaves the URL it took uncounted. A raise at lines 108-115 comes after line 99 counted the job; for a failed job line 105 has already put it in the failed list, so failed_tracks.txt lacks a line the failed list has, and the two no longer agree even as multisets. The model has no such failure, so `Orchestration.RunProcessesEverything`'s "every loaded URL is processed once" and the log agreement stated by `Recording.RecordKeepsBalance`, `Pass.DrainKeepsBalance`, `Orchestration.PoolKeepsBalance` and the third ensures of `Orchestration.RunAccounts` hold of the model only.
- How the stop event is really set (lines 204-208): only the Ctrl+C handler sets it, and it then terminates every worker. SIGINT also reaches the workers, where KeyboardInterrupt is not caught by `except Exception` (line 85). `Pass.DrainHonoursStop` describes what lines 30, 60-62 and 89-105 do once the event is seen; it is not a guarantee the program gives on Ctrl+C.
- `str(e)` of an exception is an arbitrary string carried by the oracle.
- `q.get_nowait()` failing for any reason other than an empty queue (line 33) is not modelled.
