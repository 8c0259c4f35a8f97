/**
 * The small pieces of Go's `strings`, `strconv` and `fmt` packages that the
 * program relies on for exact text layout: `strings.Repeat`, `strconv.Itoa`,
 * the `%3d` verb, `strings.TrimSpace`, `strings.TrimSuffix` and the
 * `[k more]` marker that caps a list of lines.
 */
module Fmt {

  /** `strings.Repeat(string(c), n)`. */
  function Repeat(c: char, n: nat): (r: string)
    ensures |r| == n
    ensures forall k :: 0 <= k < n ==> r[k] == c
  {
    seq(n, _ => c)
  }

  predicate IsDigit(c: char) {
    '0' <= c <= '9'
  }

  function Digit(d: nat): (c: char)
    requires d < 10
    ensures IsDigit(c) && (c as int) - ('0' as int) == d
  {
    (('0' as int) + d) as char
  }

  /** Decimal digits of `n`, most significant first, without leading zeros. */
  function NatToString(n: nat): (r: string)
    decreases n
  {
    if n < 10 then [Digit(n)] else NatToString(n / 10) + [Digit(n % 10)]
  }

  /** The value of a string of decimal digits; the inverse of NatToString. */
  function DigitsValue(s: string): int
  {
    if s == [] then 0 else 10 * DigitsValue(s[..|s| - 1]) + ((s[|s| - 1] as int) - ('0' as int))
  }

  lemma {:induction false} NatToStringDigits(n: nat)
    ensures |NatToString(n)| >= 1
    ensures forall k :: 0 <= k < |NatToString(n)| ==> IsDigit(NatToString(n)[k])
    ensures NatToString(n)[0] != '0' || n == 0
    decreases n
  {
    if n >= 10 {
      NatToStringDigits(n / 10);
    }
  }

  /** Reading the digits back gives the number: NatToString loses nothing. */
  lemma {:induction false} NatToStringRoundTrip(n: nat)
    ensures DigitsValue(NatToString(n)) == n
    decreases n
  {
    if n >= 10 {
      NatToStringRoundTrip(n / 10);
      var s := NatToString(n);
      assert s[..|s| - 1] == NatToString(n / 10);
    }
  }

  /** `strconv.Itoa(i)`: a leading `-` for negative numbers, then the digits. */
  function Itoa(i: int): string
  {
    if i < 0 then "-" + NatToString(-i) else NatToString(i)
  }

  /** `Itoa` is injective: distinct scores print differently. */
  lemma ItoaInjective(i: int, j: int)
    requires Itoa(i) == Itoa(j)
    ensures i == j
  {
    if i < 0 && j < 0 {
      assert NatToString(-i) == Itoa(i)[1..] == Itoa(j)[1..] == NatToString(-j);
      NatToStringRoundTrip(-i);
      NatToStringRoundTrip(-j);
    } else if i >= 0 && j >= 0 {
      NatToStringRoundTrip(i);
      NatToStringRoundTrip(j);
    } else if i < 0 {
      NatToStringDigits(j);
    } else {
      NatToStringDigits(i);
    }
  }

  /** Right-justifies `s` in a field of `width` characters, as `%*s` does. */
  function PadLeft(s: string, width: nat): (r: string)
    ensures |r| == if |s| >= width then |s| else width
  {
    if |s| >= width then s else Repeat(' ', width - |s|) + s
  }

  /** The padding is all spaces and `s` ends the field. */
  lemma PadLeftSpec(s: string, width: nat)
    ensures var r := PadLeft(s, width);
      && r[|r| - |s|..] == s
      && forall k :: 0 <= k < |r| - |s| ==> r[k] == ' '
  {
  }

  /** The `%3d` verb of `fmt.Sprintf`. */
  function Int3(i: int): string
  {
    PadLeft(Itoa(i), 3)
  }

  /** For a non-negative number the third character of `%3d` is always a digit. */
  lemma Int3ThirdIsDigit(i: int)
    requires i >= 0
    ensures |Int3(i)| >= 3 && IsDigit(Int3(i)[2])
  {
    NatToStringDigits(i);
    var s := Itoa(i);
    var r := Int3(i);
    PadLeftSpec(s, 3);
    if |s| < 3 {
      assert r[2] == r[|r| - |s|..][2 - (3 - |s|)] == s[2 - (3 - |s|)];
    }
  }

  /** `unicode.IsSpace`: the Unicode White_Space characters. */
  predicate IsSpace(c: char)
  {
    ('\t' <= c <= '\r') || c == ' ' || c == '\U{0085}' || c == '\U{00A0}' ||
    c == '\U{1680}' || ('\U{2000}' <= c <= '\U{200A}') || c == '\U{2028}' || c == '\U{2029}' ||
    c == '\U{202F}' || c == '\U{205F}' || c == '\U{3000}'
  }

  /** `s` without its leading white space. */
  function TrimLeft(s: string): string
  {
    if |s| > 0 && IsSpace(s[0]) then TrimLeft(s[1..]) else s
  }

  /**
   * TrimLeft drops a run of white space from the front and keeps the rest of
   * `s`, which does not start with white space.
   */
  lemma {:induction false} TrimLeftSpec(s: string)
    ensures var r := TrimLeft(s);
      && |r| <= |s| && r == s[|s| - |r|..]
      && (forall k :: 0 <= k < |s| - |r| ==> IsSpace(s[k]))
      && (r == [] || !IsSpace(r[0]))
      && ((s == [] || !IsSpace(s[0])) ==> r == s)
  {
    if |s| > 0 && IsSpace(s[0]) {
      var t := s[1..];
      TrimLeftSpec(t);
      var r := TrimLeft(t);
      assert TrimLeft(s) == r;
      assert t[|t| - |r|..] == s[|s| - |r|..];
      forall k | 0 <= k < |s| - |r| ensures IsSpace(s[k]) {
        if k > 0 {
          assert s[k] == t[k - 1];
        }
      }
    }
  }

  /** `s` without its trailing white space. */
  function TrimRight(s: string): string
  {
    if |s| > 0 && IsSpace(s[|s| - 1]) then TrimRight(s[..|s| - 1]) else s
  }

  /**
   * TrimRight drops a run of white space from the back and keeps the rest of
   * `s`, which does not end with white space.
   */
  lemma {:induction false} TrimRightSpec(s: string)
    ensures var r := TrimRight(s);
      && |r| <= |s| && r == s[..|r|]
      && (forall k :: |r| <= k < |s| ==> IsSpace(s[k]))
      && (r == [] || !IsSpace(r[|r| - 1]))
      && ((s == [] || !IsSpace(s[|s| - 1])) ==> r == s)
  {
    if |s| > 0 && IsSpace(s[|s| - 1]) {
      var t := s[..|s| - 1];
      TrimRightSpec(t);
      var r := TrimRight(t);
      assert TrimRight(s) == r;
      assert t[..|r|] == s[..|r|];
      forall k | |r| <= k < |s| ensures IsSpace(s[k]) {
        if k < |s| - 1 {
          assert s[k] == t[k];
        }
      }
    }
  }

  /** `strings.TrimSpace`: `s` with its leading and trailing white space removed. */
  function TrimSpace(s: string): string
  {
    TrimRight(TrimLeft(s))
  }

  /**
   * The result of TrimSpace neither starts nor ends with white space, and a
   * string that already does neither is kept.
   */
  lemma TrimSpaceTrimmed(s: string)
    ensures var r := TrimSpace(s); r == [] || (!IsSpace(r[0]) && !IsSpace(r[|r| - 1]))
    ensures (s == [] || (!IsSpace(s[0]) && !IsSpace(s[|s| - 1]))) ==> TrimSpace(s) == s
  {
    var l := TrimLeft(s);
    TrimLeftSpec(s);
    TrimRightSpec(l);
    var r := TrimRight(l);
    assert r != [] ==> r[0] == l[0];
  }

  /** What TrimSpace keeps is the piece of `s` between the white space at both ends. */
  lemma TrimSpaceParts(s: string)
    ensures var i := |s| - |TrimLeft(s)|; var r := TrimSpace(s);
      && 0 <= i && i + |r| <= |s| && r == s[i..i + |r|]
      && (forall k :: 0 <= k < i ==> IsSpace(s[k]))
      && (forall k :: i + |r| <= k < |s| ==> IsSpace(s[k]))
  {
    var l := TrimLeft(s);
    var r := TrimRight(l);
    var i := |s| - |l|;
    TrimLeftSpec(s);
    TrimRightSpec(l);
    TrimSpaceTail(s, l, r, i);
  }

  lemma TrimSpaceTail(s: string, l: string, r: string, i: int)
    requires 0 <= i <= |s| && l == s[i..] && |r| <= |l| && r == l[..|r|]
    requires forall k :: |r| <= k < |l| ==> IsSpace(l[k])
    ensures r == s[i..i + |r|]
    ensures forall k :: i + |r| <= k < |s| ==> IsSpace(s[k])
  {
    forall k | i + |r| <= k < |s| ensures IsSpace(s[k]) {
      assert s[k] == l[k - i];
    }
  }

  /** Trimming twice is trimming once. */
  lemma TrimSpaceIdempotent(s: string)
    ensures TrimSpace(TrimSpace(s)) == TrimSpace(s)
  {
    TrimSpaceTrimmed(s);
    TrimSpaceTrimmed(TrimSpace(s));
  }

  /** `strings.TrimSuffix`. */
  function TrimSuffix(s: string, suffix: string): (r: string)
    ensures |suffix| <= |s| && s[|s| - |suffix|..] == suffix ==> r + suffix == s
    ensures !(|suffix| <= |s| && s[|s| - |suffix|..] == suffix) ==> r == s
  {
    if |suffix| <= |s| && s[|s| - |suffix|..] == suffix then s[..|s| - |suffix|] else s
  }

  /** The `[k more]` line that stands for the `k` lines a cap drops. */
  function MoreMarker(k: int): string
  {
    "[" + Itoa(k) + " more]"
  }

  /**
   * Caps `lines` at `max` lines: when there are more, the last kept line is
   * replaced by a marker counting it and every dropped line.
   */
  function CapLines(lines: seq<string>, max: int): (r: seq<string>)
    requires |lines| <= max || max >= 1
    ensures |lines| <= max ==> r == lines
    ensures |lines| > max ==> |r| == max && r[..max - 1] == lines[..max - 1]
    ensures |lines| > max ==> r[max - 1] == MoreMarker(|lines| - max + 1)
  {
    if |lines| > max then lines[..max - 1] + [MoreMarker(|lines| - max + 1)] else lines
  }
}
