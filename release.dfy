/** The pre-flight availability check: the kernel release compared with 5.13,
    and the list of active security modules searched for "landlock". */
module Release {
  import opened Wrappers
  import opened Seqs

  /** `str::split(sep)`: the pieces between separators; never empty, and an
      empty string gives one empty piece. */
  function Split(s: string, sep: char): (parts: seq<string>)
    ensures |parts| >= 1
    decreases |s|
  {
    if s == [] then [""]
    else
      var rest := Split(s[1..], sep);
      if s[0] == sep then [""] + rest
      else [[s[0]] + rest[0]] + rest[1..]
  }

  /** The pieces glued back together with the separator. */
  function JoinWith(parts: seq<string>, sep: char): string
    requires |parts| >= 1
  {
    if |parts| == 1 then parts[0] else parts[0] + [sep] + JoinWith(parts[1..], sep)
  }

  /** Splitting loses nothing: joining the pieces gives the string back. */
  lemma {:induction false} SplitJoin(s: string, sep: char)
    ensures JoinWith(Split(s, sep), sep) == s
    decreases |s|
  {
    if s != [] {
      var rest := Split(s[1..], sep);
      SplitJoin(s[1..], sep);
      assert s == [s[0]] + s[1..];
      if s[0] == sep {
        assert ([""] + rest)[1..] == rest;
      } else if |rest| > 1 {
        var parts := [[s[0]] + rest[0]] + rest[1..];
        assert parts[1..] == rest[1..];
      }
    }
  }

  /** No piece contains the separator. */
  lemma {:induction false} SplitPiecesSeparatorFree(s: string, sep: char, i: nat)
    requires i < |Split(s, sep)|
    ensures sep !in Split(s, sep)[i]
    decreases |s|
  {
    if s != [] {
      var rest := Split(s[1..], sep);
      if s[0] == sep {
        if i > 0 {
          SplitPiecesSeparatorFree(s[1..], sep, i - 1);
        }
      } else if i == 0 {
        SplitPiecesSeparatorFree(s[1..], sep, 0);
      } else {
        SplitPiecesSeparatorFree(s[1..], sep, i);
      }
    }
  }

  /** There are at least two pieces exactly when the separator occurs. */
  lemma {:induction false} SplitCount(s: string, sep: char)
    ensures |Split(s, sep)| >= 2 <==> sep in s
    decreases |s|
  {
    if s != [] {
      SplitCount(s[1..], sep);
      assert s == [s[0]] + s[1..];
    }
  }

  /** A separator-free prefix becomes the start of the first piece. */
  lemma {:induction false} SplitPrefix(x: string, y: string, sep: char)
    requires sep !in x
    ensures Split(x + y, sep) == [x + Split(y, sep)[0]] + Split(y, sep)[1..]
    decreases |x|
  {
    if x == [] {
      var sy := Split(y, sep);
      assert x + y == y && x + sy[0] == sy[0];
      assert sy == [sy[0]] + sy[1..];
    } else {
      var xy := x + y;
      assert xy[0] == x[0] && xy[1..] == x[1..] + y;
      SplitPrefix(x[1..], y, sep);
      assert [x[0]] + (x[1..] + Split(y, sep)[0]) == x + Split(y, sep)[0];
    }
  }

  predicate IsDigit(ch: char) {
    '0' <= ch <= '9'
  }

  predicate AllDigits(s: string) {
    forall i :: 0 <= i < |s| ==> IsDigit(s[i])
  }

  /** The value of a string of decimal digits, most significant first. */
  function DecimalValue(ds: string): nat
    requires AllDigits(ds)
    decreases |ds|
  {
    if ds == [] then 0
    else DecimalValue(ds[..|ds| - 1]) * 10 + (ds[|ds| - 1] as int - '0' as int)
  }

  const U32Limit: nat := 0x1_0000_0000

  /** `str::parse::<u32>`: an optional `+`, then one or more decimal digits whose
      value fits in 32 bits; anything else is refused. */
  function ParseU32(s: string): (r: Option<nat>)
    ensures r.Some? ==> r.value < U32Limit
    ensures s == [] ==> r.None?
  {
    var digits := if |s| > 0 && s[0] == '+' then s[1..] else s;
    if digits == [] || !AllDigits(digits) then None
    else
      var n := DecimalValue(digits);
      if n < U32Limit then Some(n) else None
  }

  /** The decimal rendering of a number, without leading zeros. */
  function DecimalString(n: nat): (s: string)
    ensures s != [] && AllDigits(s)
    decreases n
  {
    var d := ((n % 10) + '0' as int) as char;
    if n < 10 then [d] else DecimalString(n / 10) + [d]
  }

  lemma {:induction false} DecimalValueOfString(n: nat)
    ensures DecimalValue(DecimalString(n)) == n
    decreases n
  {
    var s := DecimalString(n);
    assert s[..|s| - 1] == if n < 10 then [] else DecimalString(n / 10);
    if n >= 10 {
      DecimalValueOfString(n / 10);
    }
  }

  /** Parsing reads back every 32-bit value from its decimal rendering. */
  lemma ParseDecimal(n: nat)
    requires n < U32Limit
    ensures ParseU32(DecimalString(n)) == Some(n)
  {
    DecimalValueOfString(n);
  }

  /** `parse_kernel_version_ge`: false when the release has fewer than two
      dot-separated parts; otherwise compares (major, minor) with the wanted pair,
      reading a part that does not parse as 0. */
  function KernelVersionGe(osrelease: string, wantMajor: nat, wantMinor: nat): (r: bool)
    ensures '.' !in osrelease ==> !r
  {
    var parts := Split(osrelease, '.');
    SplitCount(osrelease, '.');
    if |parts| < 2 then false
    else
      var major := ParseU32(parts[0]).UnwrapOr(0);
      var minor := ParseU32(parts[1]).UnwrapOr(0);
      major > wantMajor || (major == wantMajor && minor >= wantMinor)
  }

  lemma DigitsHaveNoDot(s: string)
    requires AllDigits(s)
    ensures '.' !in s
  {
    forall i | 0 <= i < |s| ensures s[i] != '.' {
      assert IsDigit(s[i]);
    }
  }

  /** The first two pieces of "A.B" + tail, when neither A nor B holds a dot and
      the tail is empty or starts with one, are A and B. */
  lemma ReleaseParts(a: string, b: string, tail: string)
    requires '.' !in a && '.' !in b
    requires tail == [] || tail[0] == '.'
    ensures |Split(a + "." + b + tail, '.')| >= 2
    ensures Split(a + "." + b + tail, '.')[0] == a
    ensures Split(a + "." + b + tail, '.')[1] == b
  {
    var y := "." + b + tail;
    assert a + "." + b + tail == a + y;
    SplitPrefix(a, y, '.');
    assert y[0] == '.' && y[1..] == b + tail;
    var sb := Split(b + tail, '.');
    assert Split(y, '.') == [""] + sb;
    SplitPrefix(b, tail, '.');
    assert Split(tail, '.')[0] == "";
    assert sb[0] == b;
  }

  /** A release written "MAJOR.MINOR" followed by nothing or by ".anything"
      (such as "6.8.0-26-generic") compares as the pair (MAJOR, MINOR) does,
      lexicographically. */
  lemma VersionOfRelease(major: nat, minor: nat, tail: string, wantMajor: nat, wantMinor: nat)
    requires major < U32Limit && minor < U32Limit
    requires tail == [] || tail[0] == '.'
    ensures KernelVersionGe(DecimalString(major) + "." + DecimalString(minor) + tail, wantMajor, wantMinor)
            == (major > wantMajor || (major == wantMajor && minor >= wantMinor))
  {
    var a, b := DecimalString(major), DecimalString(minor);
    DigitsHaveNoDot(a);
    DigitsHaveNoDot(b);
    ReleaseParts(a, b, tail);
    ParseDecimal(major);
    ParseDecimal(minor);
  }

  /** A release without any dot never passes, and neither does the fallback text
      used when the release cannot be read. */
  lemma UnknownReleaseFails(wantMajor: nat, wantMinor: nat)
    ensures !KernelVersionGe("unknown", wantMajor, wantMinor)
  {
  }

  /** `str::contains`: `t` occurs somewhere in `s`. */
  predicate Contains(s: string, t: string)
    decreases |s|
  {
    IsPrefix(t, s) || (s != [] && Contains(s[1..], t))
  }

  /** The file contents the check reads, or its fallback text when a read fails. */
  function OsRelease(read: Option<string>): string {
    read.UnwrapOr("unknown")
  }

  function LsmList(read: Option<string>): string {
    read.UnwrapOr("<unavailable>")
  }

  /** The verdict of `perform_landlock_check`: the release is at least 5.13 and
      the security module list mentions "landlock". */
  function LandlockAvailable(osrelease: Option<string>, lsm: Option<string>): (r: bool)
    ensures r ==> '.' in OsRelease(osrelease)
  {
    KernelVersionGe(OsRelease(osrelease), 5, 13) && Contains(LsmList(lsm), "landlock")
  }

  /** For a release written "MAJOR.MINOR" followed by nothing or by ".anything",
      Landlock counts as available exactly when the version is at least 5.13 and
      the security module list mentions "landlock". */
  lemma LandlockAvailableOn(major: nat, minor: nat, tail: string, lsm: string)
    requires major < U32Limit && minor < U32Limit
    requires tail == [] || tail[0] == '.'
    ensures LandlockAvailable(Some(DecimalString(major) + "." + DecimalString(minor) + tail), Some(lsm))
            <==> (major > 5 || (major == 5 && minor >= 13)) && Contains(lsm, "landlock")
  {
    VersionOfRelease(major, minor, tail, 5, 13);
  }

  /** An unreadable release file makes the check fail. */
  lemma UnreadableReleaseUnavailable(lsm: Option<string>)
    ensures !LandlockAvailable(None, lsm)
  {
  }
}
