/**
 * `elide` from strutil.go (and its earlier, textually identical copy in
 * util.go): shortening a string to at most `max` code points, keeping the
 * `scheme://authority/` prefix of URL-shaped strings.
 *
 * Strings are sequences of code points, so `[]rune(s)` is `s` itself and a
 * rune count is `|s|`.
 */
module StrUtil {
  import opened Wrappers

  /** The single code point `…` (U+2026) that stands for the removed text. */
  const Ellipsis: char := '\U{2026}'

  /** The two capture groups of `^([^/]+://[^/]+/)(.+)$`, the first one split into its parts. */
  datatype UrlMatch = UrlMatch(scheme: string, authority: string, rest: string)
  {
    /** The first capture group, `scheme://authority/`. */
    function Prefix(): string
    {
      scheme + "://" + authority + "/"
    }
  }

  /**
   * The pattern's shape: `[^/]+` before `://`, `[^/]+` before the next `/`,
   * and `.+` after it. In Go's regexp syntax `.` never matches a newline and
   * `$` without the `m` flag means the end of the text, so the remainder is
   * non-empty and holds no newline.
   */
  predicate UrlShaped(scheme: string, authority: string, rest: string)
  {
    |scheme| > 0 && '/' !in scheme &&
    |authority| > 0 && '/' !in authority &&
    |rest| > 0 && '\n' !in rest
  }

  /** Index of the first `c` in `s` at or after `k`, or `|s|` when there is none. */
  function IndexFrom(s: string, c: char, k: nat): (i: nat)
    requires k <= |s|
    ensures k <= i <= |s|
    ensures i < |s| ==> s[i] == c
    ensures forall j :: k <= j < i ==> s[j] != c
    decreases |s| - k
  {
    if k == |s| then k else if s[k] == c then k else IndexFrom(s, c, k + 1)
  }

  /** Index of the first `c` in `s`, or `|s|` when there is none. */
  function IndexOf(s: string, c: char): (i: nat)
    ensures i <= |s|
    ensures i < |s| ==> s[i] == c
    ensures forall j :: 0 <= j < i ==> s[j] != c
  {
    IndexFrom(s, c, 0)
  }

  lemma IndexOfConcat(x: string, y: string, c: char)
    requires c !in x && |y| > 0 && y[0] == c
    ensures IndexOf(x + y, c) == |x|
  {
    assert (x + y)[|x|] == c;
    assert forall j :: 0 <= j < |x| ==> (x + y)[j] == x[j];
  }

  lemma IndexOfAbsent(s: string, c: char)
    requires c !in s
    ensures IndexOf(s, c) == |s|
  {
  }

  /**
   * `elideURLRegexp.FindStringSubmatch(s)`: the match of the URL pattern
   * against the whole of `s`, or None. Since neither `[^/]+` group can
   * contain a slash, the first slash of `s` must open the `//`.
   */
  function MatchUrl(s: string): (m: Option<UrlMatch>)
    ensures m.Some? ==> |s| == |m.value.Prefix()| + |m.value.rest|
  {
    var i := IndexOf(s, '/');
    if 2 <= i && i + 1 < |s| && s[i - 1] == ':' && s[i + 1] == '/' then
      var tail := s[i + 2..];
      var j := IndexOf(tail, '/');
      if 1 <= j < |tail| && j + 1 < |tail| && '\n' !in tail[j + 1..] then
        Some(UrlMatch(s[..i - 1], tail[..j], tail[j + 1..]))
      else None
    else None
  }

  /** A match splits `s` into the two groups, and its parts have the pattern's shape. */
  lemma MatchUrlSound(s: string)
    ensures var m := MatchUrl(s);
      m.Some? ==> s == m.value.Prefix() + m.value.rest && UrlShaped(m.value.scheme, m.value.authority, m.value.rest)
  {
    var i := IndexOf(s, '/');
    if 2 <= i && i + 1 < |s| && s[i - 1] == ':' && s[i + 1] == '/' {
      var tail := s[i + 2..];
      var j := IndexOf(tail, '/');
      if 1 <= j < |tail| && j + 1 < |tail| && '\n' !in tail[j + 1..] {
        var m := UrlMatch(s[..i - 1], tail[..j], tail[j + 1..]);
        assert MatchUrl(s) == Some(m);
        MatchUrlSplit(s, i, j);
        assert m.Prefix() + m.rest == s;
        BeforeIndex(s, '/');
        assert s[..i - 1] == s[..i][..i - 1];
        BeforeIndex(tail, '/');
      }
    }
  }

  /** Nothing before the first `c` is a `c`. */
  lemma BeforeIndex(s: string, c: char)
    ensures c !in s[..IndexOf(s, c)]
  {
    var i := IndexOf(s, c);
    forall k | 0 <= k < i ensures s[..i][k] != c {
      assert s[..i][k] == s[k];
    }
  }

  /** Cutting `s` around its `://` at `i` and the next `/` at `j` after it and gluing the pieces back. */
  lemma MatchUrlSplit(s: string, i: int, j: int)
    requires 2 <= i && i + 1 < |s| && s[i - 1] == ':' && s[i] == '/' && s[i + 1] == '/'
    requires 1 <= j && j + 1 < |s[i + 2..]| && s[i + 2..][j] == '/'
    ensures s[..i - 1] + "://" + s[i + 2..][..j] + "/" + s[i + 2..][j + 1..] == s
  {
    var tail := s[i + 2..];
    assert s == s[..i - 1] + s[i - 1..i + 2] + tail;
    assert tail == tail[..j] + [tail[j]] + tail[j + 1..];
  }

  /** Every string of the pattern's shape matches, with exactly those groups. */
  lemma MatchUrlComplete(scheme: string, authority: string, rest: string)
    requires UrlShaped(scheme, authority, rest)
    ensures MatchUrl(scheme + "://" + authority + "/" + rest) == Some(UrlMatch(scheme, authority, rest))
  {
    var s := scheme + "://" + authority + "/" + rest;
    var x := scheme + ":";
    var y := "//" + authority + "/" + rest;
    assert s == x + y;
    assert '/' !in x by {
      assert x == scheme + [':'];
    }
    IndexOfConcat(x, y, '/');
    var i := |scheme| + 1;
    assert s[i - 1] == ':' && s[i] == '/' && s[i + 1] == '/';
    var tail := s[i + 2..];
    assert tail == authority + ("/" + rest);
    IndexOfConcat(authority, "/" + rest, '/');
    assert tail[|authority| + 1..] == rest;
    assert tail[..|authority|] == authority;
    assert s[..i - 1] == scheme;
  }

  /** A string without a slash is never URL-shaped. */
  lemma NoSlashNoMatch(s: string)
    requires '/' !in s
    ensures MatchUrl(s) == None
  {
    IndexOfAbsent(s, '/');
  }

  /**
   * `elide(s, max)`. The source slices `r[:max-1]` in the fallback, which
   * panics for `max <= 0`; that branch is reached exactly when `s` is longer
   * than `max` and `max < 1`, so callers must avoid that combination.
   */
  function Elide(s: string, max: int): (r: string)
    requires |s| <= max || max >= 1
    ensures |s| <= max ==> r == s
    ensures |s| > max ==> |r| == max
  {
    if |s| <= max then s
    else
      var m := MatchUrl(s);
      if m.Some? && |m.value.Prefix()| < max then ElideUrl(m.value, max)
      else s[..max - 1] + [Ellipsis]
  }

  /** The URL branch of `elide`: prefix, head of the remainder, `…`, tail of the remainder. */
  function ElideUrl(m: UrlMatch, max: int): (r: string)
    requires |m.Prefix()| < max < |m.Prefix()| + |m.rest|
    ensures |r| == max
  {
    var url := m.Prefix();
    var end := m.rest;
    var withHead := url + end[..(max - |url|) / 2] + [Ellipsis];
    var rem := max - |withHead|;
    if rem > 0 then withHead + end[|end| - rem..] else withHead
  }

  /** Head and tail lengths are both shorter than the remainder, so every slice is in bounds. */
  function HeadLen(p: nat, max: int): int
  {
    (max - p) / 2
  }

  function TailLen(p: nat, max: int): int
  {
    max - p - HeadLen(p, max) - 1
  }

  /** Shortening never produces more than `max` code points, and a short string is left alone. */
  lemma ElideBounded(s: string, max: int)
    requires |s| <= max || max >= 1
    ensures |Elide(s, max)| <= max
    ensures Elide(s, max) == s <==> |s| <= max
  {
  }

  /** Shortening twice is shortening once. */
  lemma ElideIdempotent(s: string, max: int)
    requires |s| <= max || max >= 1
    ensures Elide(Elide(s, max), max) == Elide(s, max)
  {
  }

  /** Outside the URL branch: the first `max-1` code points and one `…`. */
  lemma ElideFallback(s: string, max: int)
    requires |s| > max >= 1
    requires MatchUrl(s).None? || |MatchUrl(s).value.Prefix()| >= max
    ensures Elide(s, max) == s[..max - 1] + [Ellipsis]
  {
  }

  /**
   * The URL branch: with `p` the prefix length, the result is the whole
   * prefix, then the first `(max-p)/2` code points of the remainder, then
   * `…`, then the last `max-p-(max-p)/2-1` code points of the remainder
   * (none when that is not positive). Head and tail are disjoint parts of
   * the remainder and differ in length by at most one.
   */
  lemma ElideUrlParts(s: string, max: int)
    requires |s| > max
    requires MatchUrl(s).Some? && |MatchUrl(s).value.Prefix()| < max
    ensures var m := MatchUrl(s).value; var p := |m.Prefix()|;
      var h := HeadLen(p, max); var t := TailLen(p, max);
      && 0 <= h && 0 <= t && p + h + 1 + t == max && t <= h <= t + 1
      && Elide(s, max) == m.Prefix() + m.rest[..h] + [Ellipsis] + m.rest[|m.rest| - t..]
  {
    var m := MatchUrl(s).value;
    assert Elide(s, max) == ElideUrl(m, max);
    ElideUrlShape(m, max);
  }

  /** `ElideUrl` on its own: the prefix, a head, `…` and a tail, together `max` code points. */
  lemma ElideUrlShape(m: UrlMatch, max: int)
    requires |m.Prefix()| < max < |m.Prefix()| + |m.rest|
    ensures var p := |m.Prefix()|; var h := HeadLen(p, max); var t := TailLen(p, max);
      && 0 <= h && 0 <= t && p + h + 1 + t == max && t <= h <= t + 1
      && ElideUrl(m, max) == m.Prefix() + m.rest[..h] + [Ellipsis] + m.rest[|m.rest| - t..]
  {
    var p := |m.Prefix()|;
    var h := HeadLen(p, max);
    var t := TailLen(p, max);
    var withHead := m.Prefix() + m.rest[..h] + [Ellipsis];
    assert |withHead| == p + h + 1;
    if t == 0 {
      assert m.rest[|m.rest| - t..] == [];
      assert withHead + [] == withHead;
    }
  }

  /**
   * Whichever branch is taken, eliding replaces one stretch of at least two
   * consecutive code points of `s` by the single `…`: the result is a prefix
   * of `s`, `…`, and a suffix of `s`.
   */
  lemma ElideCutsMiddle(s: string, max: int)
    requires |s| > max >= 1
    ensures exists i, j :: 0 <= i && i + 2 <= j <= |s| && Elide(s, max) == s[..i] + [Ellipsis] + s[j..]
  {
    var m := MatchUrl(s);
    if m.Some? && |m.value.Prefix()| < max {
      var i, j := CutUrl(s, max);
    } else {
      ElideFallback(s, max);
      assert s[..max - 1] + [Ellipsis] == s[..max - 1] + [Ellipsis] + s[|s|..];
    }
  }

  lemma CutUrl(s: string, max: int) returns (i: int, j: int)
    requires |s| > max
    requires MatchUrl(s).Some? && |MatchUrl(s).value.Prefix()| < max
    ensures 0 <= i && i + 2 <= j <= |s| && Elide(s, max) == s[..i] + [Ellipsis] + s[j..]
  {
    var m := MatchUrl(s).value;
    MatchUrlSound(s);
    assert Elide(s, max) == ElideUrl(m, max);
    i, j := CutMatch(s, m, max);
  }

  /** The URL branch on a match of `s` cuts one stretch out of `s`. */
  lemma CutMatch(s: string, m: UrlMatch, max: int) returns (i: int, j: int)
    requires s == m.Prefix() + m.rest && |m.Prefix()| < max < |s|
    ensures 0 <= i && i + 2 <= j <= |s| && ElideUrl(m, max) == s[..i] + [Ellipsis] + s[j..]
  {
    var p := |m.Prefix()|;
    ElideUrlShape(m, max);
    i, j := CutAround(s, m.Prefix(), m.rest, HeadLen(p, max), TailLen(p, max), ElideUrl(m, max));
  }

  /** A prefix, a head and a tail of the rest of `s`, put around `…`, cut one stretch out of `s`. */
  lemma CutAround(s: string, prefix: string, rest: string, h: int, t: int, e: string) returns (i: int, j: int)
    requires s == prefix + rest && 0 <= h && 0 <= t && h + t + 2 <= |rest|
    requires e == prefix + rest[..h] + [Ellipsis] + rest[|rest| - t..]
    ensures 0 <= i && i + 2 <= j <= |s|
    ensures e == s[..i] + [Ellipsis] + s[j..]
  {
    i, j := |prefix| + h, |s| - t;
    assert s[..i] == prefix + rest[..h];
    assert s[j..] == rest[|rest| - t..];
  }
}
