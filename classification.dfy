/** Classification of one finished job from its captured output and return
    code (spotdl_batch_feeder.py lines 94-96 and the if/elif/else of 100-105). */
module Classification {
  import opened Text

  datatype Outcome = Skipped | Downloaded | Failed

  /** The case-sensitive markers the downloader prints. */
  const SkipMarker := "Skipping"
  const ExistsMarker := "already exists"
  const DoneMarker := "Downloaded"

  predicate IsMarker(m: string) {
    m == SkipMarker || m == ExistsMarker || m == DoneMarker
  }

  /** The track was already present: either skip marker occurs. */
  predicate SaysSkipped(buffer: string) {
    Contains(buffer, SkipMarker) || Contains(buffer, ExistsMarker)
  }

  /** Skipped wins, then a completion marker or a zero return code means
      Downloaded, and everything else is Failed. */
  function Classify(buffer: string, code: int): (o: Outcome)
    ensures o == Skipped <==> SaysSkipped(buffer)
    ensures o == Downloaded <==> !SaysSkipped(buffer) && (Contains(buffer, DoneMarker) || code == 0)
    ensures o == Failed <==> !SaysSkipped(buffer) && !Contains(buffer, DoneMarker) && code != 0
  {
    var isSkipped := SaysSkipped(buffer);
    var isDownloaded := Contains(buffer, DoneMarker) || (code == 0 && !isSkipped);
    if isSkipped then Skipped
    else if isDownloaded then Downloaded
    else Failed
  }

  /** Two buffers that agree on every marker classify alike under the same code. */
  lemma SameMarkersSameOutcome(a: string, b: string, code: int)
    requires forall m :: IsMarker(m) ==> (Contains(a, m) <==> Contains(b, m))
    ensures Classify(a, code) == Classify(b, code)
  {
    assert IsMarker(SkipMarker) && IsMarker(ExistsMarker) && IsMarker(DoneMarker);
  }

  /** Examples: an "already exists" transcript is Skipped,
      a "Downloaded" transcript is Downloaded, silence with code 1 is Failed,
      silence with code 0 is Downloaded, and a transcript carrying both the
      skip and the completion marker is Skipped. */
  lemma ClassifyExamples()
    ensures Classify("x already exists y", 0) == Skipped
    ensures Classify("Downloaded \"a - b\"", 0) == Downloaded
    ensures Classify("", 1) == Failed
    ensures Classify("", 0) == Downloaded
    ensures Classify("Skipping a\nDownloaded b", 1) == Skipped
    ensures Classify("", -999) == Failed
  {
    assert OccursAt("x already exists y", ExistsMarker, 2);
    assert OccursAt("Downloaded \"a - b\"", DoneMarker, 0);
    assert OccursAt("Skipping a\nDownloaded b", SkipMarker, 0);
    DownloadLineNotSkipped();
  }

  /** The completion transcript of the examples carries neither skip marker. */
  lemma DownloadLineNotSkipped()
    ensures !SaysSkipped("Downloaded \"a - b\"")
  {
    var b := "Downloaded \"a - b\"";
    if Contains(b, SkipMarker) {
      ContainedCharsOccur(b, SkipMarker, 'k');
    }
    if Contains(b, ExistsMarker) {
      ContainedCharsOccur(b, ExistsMarker, 'y');
    }
  }
}
