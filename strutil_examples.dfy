/** The cases of strutil_test.go and util_test.go, stated about `StrUtil.Elide`. */
module StrUtilExamples {
  import opened Wrappers
  import opened StrUtil

  /** The literal cases of strutil_test.go. */
  lemma ElideExamples()
    ensures Elide("hello", 10) == "hello"
    ensures Elide("hello there", 1) == [Ellipsis]
    ensures Elide("hello there", 2) == "h" + [Ellipsis]
    ensures Elide("hello there", 9) == "hello th" + [Ellipsis]
    ensures Elide("hello there", 10) == "hello the" + [Ellipsis]
    ensures Elide("hello there", 11) == "hello there"
    ensures Elide("hello there", 12) == "hello there"
  {
    NoSlashNoMatch("hello there");
  }

  /** The URL of the tests, `https://example.org/dir/file.html`, as its prefix and its path. */
  const ExamplePrefix: string := "https" + "://" + "example.org" + "/"
  const ExamplePath: string := "dir/file.html"
  const ExampleUrl: string := ExamplePrefix + ExamplePath

  lemma ExampleUrlMatch()
    ensures MatchUrl(ExampleUrl) == Some(UrlMatch("https", "example.org", ExamplePath))
    ensures |ExamplePrefix| == 20 && |ExamplePath| == 13
  {
    MatchUrlComplete("https", "example.org", ExamplePath);
  }

  /** Within the URL branch, the example URL keeps a head and a tail of its path. */
  lemma ExampleUrlElided(max: int, h: nat, t: nat)
    requires 21 <= max < 33 && h == HeadLen(20, max) && t == TailLen(20, max)
    ensures h + t < 13
    ensures Elide(ExampleUrl, max) == ExamplePrefix + ExamplePath[..h] + [Ellipsis] + ExamplePath[13 - t..]
  {
    ExampleUrlMatch();
    ElideUrlParts(ExampleUrl, max);
  }

  /**
   * URL cases of strutil_test.go: with room for nothing but the prefix and
   * `…`, or less, and with room for everything.
   */
  lemma ElideUrlExamples()
    ensures Elide(ExampleUrl, 20) == "https://example.org" + [Ellipsis]
    ensures Elide(ExampleUrl, 21) == ExamplePrefix + [Ellipsis]
    ensures Elide(ExampleUrl, 33) == ExampleUrl
    ensures Elide(ExampleUrl, 34) == ExampleUrl
  {
    ExampleUrlMatch();
    ElideFallback(ExampleUrl, 20);
    assert ExampleUrl[..19] == "https://example.org";
    ExampleUrlElided(21, 0, 0);
  }

  /** URL cases of strutil_test.go that keep a head and a tail of the path. */
  lemma ElideUrlHeadTailExamples()
    ensures ExamplePath[..1] == "d" && ExamplePath[12..] == "l"
    ensures Elide(ExampleUrl, 23) == ExamplePrefix + "d" + [Ellipsis] + "l"
    ensures ExamplePath[..2] == "di" && ExamplePath[11..] == "ml"
    ensures Elide(ExampleUrl, 25) == ExamplePrefix + "di" + [Ellipsis] + "ml"
  {
    ExampleUrlElided(23, 1, 1);
    ExampleUrlElided(25, 2, 2);
  }

  lemma ElideUrlLongerExample()
    ensures ExamplePath[..4] == "dir/" && ExamplePath[10..] == "tml"
    ensures Elide(ExampleUrl, 28) == ExamplePrefix + "dir/" + [Ellipsis] + "tml"
  {
    ExampleUrlElided(28, 4, 3);
  }

  lemma ElideUrlLongestExample()
    ensures ExamplePath[..6] == "dir/fi" && ExamplePath[8..] == ".html"
    ensures Elide(ExampleUrl, 32) == ExamplePrefix + "dir/fi" + [Ellipsis] + ".html"
  {
    ExampleUrlElided(32, 6, 5);
  }

  /** Cases of util_test.go, for the earlier copy of `elide` in util.go. */
  lemma UtilElideExamples()
    ensures Elide("hello", 10) == "hello"
    ensures Elide("hello this is a test", 10) == "hello thi" + [Ellipsis]
  {
    NoSlashNoMatch("hello this is a test");
  }

  /** URL cases of util_test.go: the head of the path gets the odd code point. */
  lemma UtilElideUrlExamples()
    ensures ExamplePath[..1] == "d" && ExamplePath[13..] == []
    ensures Elide(ExampleUrl, 22) == ExamplePrefix + "d" + [Ellipsis]
    ensures ExamplePath[..2] == "di" && ExamplePath[12..] == "l"
    ensures Elide(ExampleUrl, 24) == ExamplePrefix + "di" + [Ellipsis] + "l"
  {
    ExampleUrlElided(22, 1, 0);
    ExampleUrlElided(24, 2, 1);
  }

  lemma UtilElideUrlLongerExamples()
    ensures ExamplePath[..5] == "dir/f" && ExamplePath[8..] == ".html"
    ensures Elide(ExampleUrl, 31) == ExamplePrefix + "dir/f" + [Ellipsis] + ".html"
    ensures Elide(ExampleUrl, 35) == ExampleUrl
  {
    ExampleUrlElided(31, 5, 5);
  }
}
