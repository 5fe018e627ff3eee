/** Which lines of the input list become jobs (spotdl_batch_feeder.py lines
    120-125): each line is stripped and kept when it starts with "http". */
module Loader {
  import opened Text

  const UrlPrefix := "http"

  /** A stripped line that becomes a job. */
  predicate IsJobUrl(u: string) {
    StartsWith(u, UrlPrefix)
  }

  /** What one line contributes to the queue: its stripped text, if that is a URL. */
  function KeptLine(line: string): (r: seq<string>)
    ensures |r| <= 1
    ensures forall k :: 0 <= k < |r| ==> IsJobUrl(r[k])
  {
    var url := Strip(line);
    if IsJobUrl(url) then [url] else []
  }

  /** The URLs `load_urls` enqueues for these lines, in file order. */
  function KeptUrls(lines: seq<string>): (r: seq<string>)
    ensures |r| <= |lines|
    ensures forall k :: 0 <= k < |r| ==> IsJobUrl(r[k])
  {
    if lines == [] then [] else KeptUrls(lines[..|lines| - 1]) + KeptLine(lines[|lines| - 1])
  }

  /** Loading two stretches of lines one after the other keeps both in order. */
  lemma {:induction false} KeptUrlsAppend(a: seq<string>, b: seq<string>)
    ensures KeptUrls(a + b) == KeptUrls(a) + KeptUrls(b)
    decreases |b|
  {
    if b == [] {
      assert a + b == a;
    } else {
      var b' := b[..|b| - 1];
      var last := b[|b| - 1];
      assert b == b' + [last];
      calc {
        KeptUrls(a + b);
        { assert a + b == (a + b') + [last]; }
        KeptUrls((a + b') + [last]);
        { KeptUrlsSnoc(a + b', last); }
        KeptUrls(a + b') + KeptLine(last);
        { KeptUrlsAppend(a, b'); }
        (KeptUrls(a) + KeptUrls(b')) + KeptLine(last);
        KeptUrls(a) + (KeptUrls(b') + KeptLine(last));
        { KeptUrlsSnoc(b', last); }
        KeptUrls(a) + KeptUrls(b);
      }
    }
  }

  /** One more line adds what that line contributes, at the end. */
  lemma KeptUrlsSnoc(lines: seq<string>, line: string)
    ensures KeptUrls(lines + [line]) == KeptUrls(lines) + KeptLine(line)
  {
    assert (lines + [line])[..|lines|] == lines;
  }

  /** A URL is enqueued exactly when some line strips to it and it starts
      with "http"; every other line is dropped. */
  lemma {:induction false} KeptUrlsMembership(lines: seq<string>, u: string)
    ensures u in KeptUrls(lines)
        <==> exists i :: 0 <= i < |lines| && Strip(lines[i]) == u && IsJobUrl(u)
    decreases |lines|
  {
    if lines != [] {
      var init := lines[..|lines| - 1];
      var last := lines[|lines| - 1];
      KeptUrlsMembership(init, u);
      assert KeptUrls(lines) == KeptUrls(init) + KeptLine(last);
      assert u in KeptLine(last) <==> Strip(last) == u && IsJobUrl(u);
      LastLineSplit(init, last, lines, u);
    }
  }

  /** Some line yields `u` exactly when some line before the last does or the
      last one does. */
  lemma LastLineSplit(init: seq<string>, last: string, lines: seq<string>, u: string)
    requires lines == init + [last]
    ensures (exists i :: 0 <= i < |lines| && Strip(lines[i]) == u && IsJobUrl(u))
        <==> (exists i :: 0 <= i < |init| && Strip(init[i]) == u && IsJobUrl(u))
             || (Strip(last) == u && IsJobUrl(u))
  {
    if exists i :: 0 <= i < |init| && Strip(init[i]) == u && IsJobUrl(u) {
      var i :| 0 <= i < |init| && Strip(init[i]) == u && IsJobUrl(u);
      assert lines[i] == init[i];
    }
    if exists i :: 0 <= i < |lines| && Strip(lines[i]) == u && IsJobUrl(u) {
      var i :| 0 <= i < |lines| && Strip(lines[i]) == u && IsJobUrl(u);
      if i < |init| {
        assert init[i] == lines[i];
      }
    }
    if Strip(last) == u && IsJobUrl(u) {
      assert lines[|init|] == last;
    }
  }

  /** Lines of the list as it might read: a URL, a blank line, a padded URL
      and a line with another scheme. */
  lemma KeptUrlsExample()
    ensures KeptUrls(["https://a\n", "\n", "  http://b \n", "ftp://c\n"]) == ["https://a", "http://b"]
  {
    ExampleLines();
    var lines := ["https://a\n", "\n", "  http://b \n", "ftp://c\n"];
    assert lines[..3] == ["https://a\n", "\n", "  http://b \n"];
    assert lines[..3][..2] == ["https://a\n", "\n"];
    assert lines[..3][..2][..1] == ["https://a\n"];
    assert KeptUrls(["https://a\n"]) == ["https://a"];
    assert KeptUrls(["https://a\n", "\n"]) == ["https://a"];
    assert KeptUrls(["https://a\n", "\n", "  http://b \n"]) == ["https://a", "http://b"];
  }

  /** What each line of the example above contributes. */
  lemma ExampleLines()
    ensures KeptLine("https://a\n") == ["https://a"]
    ensures KeptLine("\n") == []
    ensures KeptLine("  http://b \n") == ["http://b"]
    ensures KeptLine("ftp://c\n") == []
  {
    ExampleUrlLine();
    ExamplePaddedLine();
    ExampleOtherLines();
  }

  lemma ExampleUrlLine()
    ensures KeptLine("https://a\n") == ["https://a"]
  {
    assert TrimStart("https://a\n") == "https://a\n";
    assert TrimEnd("https://a\n") == TrimEnd("https://a") == "https://a";
  }

  lemma ExamplePaddedLine()
    ensures KeptLine("  http://b \n") == ["http://b"]
  {
    assert TrimStart("  http://b \n") == TrimStart(" http://b \n") == "http://b \n";
    assert "http://b \n"[..9] == "http://b ";
    assert "http://b "[..8] == "http://b";
    assert TrimEnd("http://b \n") == TrimEnd("http://b ") == "http://b";
  }

  lemma ExampleOtherLines()
    ensures KeptLine("\n") == []
    ensures KeptLine("ftp://c\n") == []
  {
    assert TrimStart("\n") == "";
    assert TrimStart("ftp://c\n") == "ftp://c\n";
    assert TrimEnd("ftp://c\n") == TrimEnd("ftp://c") == "ftp://c";
  }
}
