/**
 * String helpers the service relies on: decimal rendering of integers in f-strings,
 * the `"%Y%m%d_%H%M%S"` timestamp, `os.path.splitext` and the local file name built from them.
 */
module Text {

  predicate IsDigit(c: char) {
    '0' <= c <= '9'
  }

  function DigitChar(d: nat): (c: char)
    requires d < 10
    ensures IsDigit(c) && DigitValue(c) == d
  {
    "0123456789"[d]
  }

  function DigitValue(c: char): (d: nat)
    requires IsDigit(c)
    ensures d < 10
  {
    c as int - '0' as int
  }

  /** Python's `str(n)` for `n >= 0`. */
  function NatToString(n: nat): (s: string)
    ensures |s| > 0
    ensures forall i :: 0 <= i < |s| ==> IsDigit(s[i])
    ensures s[0] == '0' ==> n == 0 && s == "0"
  {
    if n < 10 then [DigitChar(n)] else NatToString(n / 10) + [DigitChar(n % 10)]
  }

  /** The value of a string of decimal digits. */
  function ParseNat(s: string): nat
    requires forall i :: 0 <= i < |s| ==> IsDigit(s[i])
  {
    if s == [] then 0 else 10 * ParseNat(s[..|s| - 1]) + DigitValue(s[|s| - 1])
  }

  /** Reading back `str(n)` gives `n`: the rendering loses nothing. */
  lemma {:induction false} ParseNatToString(n: nat)
    ensures ParseNat(NatToString(n)) == n
  {
    var s := NatToString(n);
    if n >= 10 {
      var prefix := NatToString(n / 10);
      assert s[..|s| - 1] == prefix;
      ParseNatToString(n / 10);
    }
  }

  /** Python's `str(n)` (and `f"{n}"`) for any integer. */
  function IntToString(n: int): (s: string)
    ensures |s| > 0
    ensures n < 0 <==> s[0] == '-'
    ensures n >= 0 ==> s == NatToString(n)
    ensures n < 0 ==> s[1..] == NatToString(-n)
  {
    if n < 0 then "-" + NatToString(-n) else NatToString(n)
  }

  /** Different naturals render differently. */
  lemma NatToStringInjective(a: nat, b: nat)
    requires NatToString(a) == NatToString(b)
    ensures a == b
  {
    ParseNatToString(a);
    ParseNatToString(b);
  }

  /** Different integers render differently, so a message quoting an id names exactly that id. */
  lemma IntToStringInjective(m: int, n: int)
    requires IntToString(m) == IntToString(n)
    ensures m == n
  {
    if m < 0 {
      assert n < 0;
      NatToStringInjective(-m, -n);
    } else {
      assert n >= 0;
      NatToStringInjective(m, n);
    }
  }

  /** The fields of a `datetime`, each within the range the `datetime` type enforces. */
  datatype DateTime = DateTime(year: int, month: int, day: int, hour: int, minute: int, second: int)
  {
    predicate Valid() {
      1 <= year <= 9999 && 1 <= month <= 12 && 1 <= day <= 31 &&
      0 <= hour < 24 && 0 <= minute < 60 && 0 <= second < 60
    }
  }

  /** `n` as exactly `width` decimal digits, zero-padded on the left. */
  function Padded(n: nat, width: nat): (s: string)
    ensures |s| == width
    ensures forall i :: 0 <= i < |s| ==> IsDigit(s[i])
  {
    if width == 0 then [] else Padded(n / 10, width - 1) + [DigitChar(n % 10)]
  }

  function Power10(k: nat): (p: nat)
    ensures p >= 1
  {
    if k == 0 then 1 else 10 * Power10(k - 1)
  }

  /** A zero-padded rendering reads back as the number, when the number fits the width. */
  lemma {:induction false} ParsePadded(n: nat, width: nat)
    requires n < Power10(width)
    ensures ParseNat(Padded(n, width)) == n
  {
    if width > 0 {
      var s := Padded(n, width);
      assert s[..|s| - 1] == Padded(n / 10, width - 1);
      ParsePadded(n / 10, width - 1);
    }
  }

  /** `now.strftime("%Y%m%d_%H%M%S")`. */
  function Timestamp(t: DateTime): (s: string)
    requires t.Valid()
    ensures |s| == 15 && s[8] == '_'
    ensures forall i :: 0 <= i < 15 && i != 8 ==> IsDigit(s[i])
  {
    Padded(t.year, 4) + Padded(t.month, 2) + Padded(t.day, 2) + "_" +
    Padded(t.hour, 2) + Padded(t.minute, 2) + Padded(t.second, 2)
  }

  /** Splits a timestamp back into its fields. */
  function ParseTimestamp(s: string): DateTime
    requires |s| == 15
    requires forall i :: 0 <= i < 15 && i != 8 ==> IsDigit(s[i])
  {
    DateTime(ParseNat(s[0..4]), ParseNat(s[4..6]), ParseNat(s[6..8]),
             ParseNat(s[9..11]), ParseNat(s[11..13]), ParseNat(s[13..15]))
  }

  /** The timestamp determines the second it was taken at. */
  lemma TimestampRoundTrip(t: DateTime)
    requires t.Valid()
    ensures ParseTimestamp(Timestamp(t)) == t
  {
    var y, mo, d := Padded(t.year, 4), Padded(t.month, 2), Padded(t.day, 2);
    var h, mi, se := Padded(t.hour, 2), Padded(t.minute, 2), Padded(t.second, 2);
    var s := Timestamp(t);
    assert s == y + mo + d + "_" + h + mi + se;
    assert s[0..4] == y && s[4..6] == mo && s[6..8] == d;
    assert s[9..11] == h && s[11..13] == mi && s[13..15] == se;
    assert Power10(2) == 100 && Power10(4) == 10000;
    ParsePadded(t.year, 4);
    ParsePadded(t.month, 2);
    ParsePadded(t.day, 2);
    ParsePadded(t.hour, 2);
    ParsePadded(t.minute, 2);
    ParsePadded(t.second, 2);
  }

  /** The index of the last `c` in `s`, or -1 (Python's `s.rfind(c)`). */
  function LastIndexOf(s: string, c: char): (r: int)
    ensures -1 <= r < |s|
    ensures r >= 0 ==> s[r] == c
    ensures forall j :: r < j < |s| ==> s[j] != c
  {
    LastIndexBelow(s, c, |s|)
  }

  /** The index of the last `c` in `s[..n]`, or -1. */
  function LastIndexBelow(s: string, c: char, n: nat): (r: int)
    requires n <= |s|
    ensures -1 <= r < n
    ensures r >= 0 ==> s[r] == c
    ensures forall j :: r < j < n ==> s[j] != c
  {
    if n == 0 then -1
    else if s[n - 1] == c then n - 1
    else LastIndexBelow(s, c, n - 1)
  }

  /**
   * `os.path.splitext(p)` on POSIX: the extension starts at the last `.` after the last `/`,
   * unless every character of the base name before that dot is itself a dot
   * (so `".bashrc"` and `"a/..x"` have no extension).
   */
  function SplitExt(p: string): (r: (string, string))
    ensures r.0 + r.1 == p
    ensures r.1 != [] ==> r.1[0] == '.'
    ensures forall j :: 0 < j < |r.1| ==> r.1[j] != '.' && r.1[j] != '/'
  {
    var sep := LastIndexOf(p, '/');
    var dot := LastIndexOf(p, '.');
    if dot > sep && HasNonDot(p, sep + 1, dot) then
      (p[..dot], p[dot..])
    else
      (p, [])
  }

  /** Some character of `p[lo..hi]` is not a `.` (the scan past the leading dots of a base name). */
  function HasNonDot(p: string, lo: nat, hi: nat): bool
    requires lo <= hi <= |p|
    decreases hi - lo
  {
    lo < hi && (p[lo] != '.' || HasNonDot(p, lo + 1, hi))
  }

  lemma {:induction false} HasNonDotAt(p: string, lo: nat, hi: nat, i: nat)
    requires lo <= i < hi <= |p| && p[i] != '.'
    ensures HasNonDot(p, lo, hi)
    decreases i - lo
  {
    if lo < i {
      HasNonDotAt(p, lo + 1, hi, i);
    }
  }

  lemma {:induction false} NonDotWitness(p: string, lo: nat, hi: nat) returns (i: nat)
    requires lo <= hi <= |p| && HasNonDot(p, lo, hi)
    ensures lo <= i < hi && p[i] != '.'
    decreases hi - lo
  {
    if p[lo] != '.' {
      i := lo;
    } else {
      i := NonDotWitness(p, lo + 1, hi);
    }
  }

  /** The base name of `p`: everything after its last `/`. */
  function BaseName(p: string): string {
    p[LastIndexOf(p, '/') + 1..]
  }

  /** Some `.` of `p` at or after `start` follows a character, also at or after `start`, other than `.`. */
  ghost predicate DotAfterNonDot(p: string, start: nat) {
    exists i, k :: start <= i < k < |p| && p[k] == '.' && p[i] != '.'
  }

  /**
   * A file has an extension exactly when its base name (the part after the last `/`) holds
   * a `.` preceded, somewhere in the base name, by a character other than `.`.
   */
  lemma ExtensionIff(p: string)
    ensures SplitExt(p).1 != [] <==> DotAfterNonDot(p, LastIndexOf(p, '/') + 1)
  {
    if DotAfterNonDot(p, LastIndexOf(p, '/') + 1) {
      ExtensionIfDot(p);
    }
    if SplitExt(p).1 != [] {
      DotIfExtension(p);
    }
  }

  lemma ExtensionIfDot(p: string)
    requires DotAfterNonDot(p, LastIndexOf(p, '/') + 1)
    ensures SplitExt(p).1 != []
  {
    var i, k :| LastIndexOf(p, '/') + 1 <= i < k < |p| && p[k] == '.' && p[i] != '.';
    assert k <= LastIndexOf(p, '.');
    HasNonDotAt(p, LastIndexOf(p, '/') + 1, LastIndexOf(p, '.'), i);
  }

  lemma DotIfExtension(p: string)
    requires SplitExt(p).1 != []
    ensures DotAfterNonDot(p, LastIndexOf(p, '/') + 1)
  {
    var sep := LastIndexOf(p, '/');
    var dot := LastIndexOf(p, '.');
    var i := NonDotWitness(p, sep + 1, dot);
    assert p[dot] == '.';
  }

  /** A non-empty extension is a suffix of the base name: it never reaches into a directory name. */
  lemma ExtensionInBaseName(p: string)
    requires SplitExt(p).1 != []
    ensures |SplitExt(p).1| <= |BaseName(p)|
    ensures BaseName(p)[|BaseName(p)| - |SplitExt(p).1|..] == SplitExt(p).1
  {
    var sep := LastIndexOf(p, '/');
    var dot := LastIndexOf(p, '.');
    ExtensionStartsAtLastDot(p);
    SuffixOfSuffix(p, sep + 1, dot);
  }

  /** A non-empty extension runs from the last `.`, which comes after the last `/`. */
  lemma ExtensionStartsAtLastDot(p: string)
    requires SplitExt(p).1 != []
    ensures LastIndexOf(p, '/') < LastIndexOf(p, '.')
    ensures SplitExt(p).1 == p[LastIndexOf(p, '.')..]
  {
  }

  lemma SuffixOfSuffix(p: string, i: int, j: int)
    requires 0 <= i <= j <= |p|
    ensures p[i..][|p[i..]| - |p[j..]|..] == p[j..]
  {
    assert |p[i..]| - |p[j..]| == j - i;
  }

  /** The name a saved upload gets: `f"{timestamp}{os.path.splitext(filename)[1]}"`. */
  function LocalFileName(now: DateTime, filename: string): (name: string)
    requires now.Valid()
    ensures name == Timestamp(now) + SplitExt(filename).1
    ensures |name| >= 15 && name[8] == '_'
  {
    Timestamp(now) + SplitExt(filename).1
  }

  /** `os.path.join("input", name)`. */
  function LocalPath(now: DateTime, filename: string): (path: string)
    requires now.Valid()
    ensures path == "input/" + LocalFileName(now, filename)
  {
    "input/" + LocalFileName(now, filename)
  }

  /**
   * Two saved uploads share a local path only when they were saved within the same second
   * and their file names carry the same extension.
   */
  lemma LocalPathDeterminesTime(a: DateTime, b: DateTime, f: string, g: string)
    requires a.Valid() && b.Valid() && LocalPath(a, f) == LocalPath(b, g)
    ensures a == b && SplitExt(f).1 == SplitExt(g).1
  {
    var p, q := LocalPath(a, f), LocalPath(b, g);
    assert p[6..21] == Timestamp(a) && q[6..21] == Timestamp(b);
    assert p[21..] == SplitExt(f).1 && q[21..] == SplitExt(g).1;
    TimestampRoundTrip(a);
    TimestampRoundTrip(b);
  }
}
