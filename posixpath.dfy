/** The part of POSIX path handling the argument checks use: splitting a
    path into a root and an extension, as `os.path.splitext` does with `/`
    as the only separator and `.` as the extension separator. */
module PosixPath {

  /** Index of the last `c` in `s`, or -1 when `s` has none. */
  function LastIndex(s: string, c: char): (i: int)
    ensures -1 <= i < |s|
    ensures 0 <= i ==> s[i] == c
  {
    if |s| == 0 then -1
    else if s[|s| - 1] == c then |s| - 1
    else LastIndex(s[..|s| - 1], c)
  }

  /** No `c` follows the index `LastIndex` reports. */
  lemma {:induction false} LastIndexIsLast(s: string, c: char)
    ensures forall k :: LastIndex(s, c) < k < |s| ==> s[k] != c
  {
    if |s| > 0 && s[|s| - 1] != c {
      LastIndexIsLast(s[..|s| - 1], c);
    }
  }

  /** Whether `p[lo..hi]` holds a character other than `.`; the scan that
      skips the leading dots of the final path component. */
  function NonDotBetween(p: string, lo: int, hi: int): bool
    requires 0 <= lo && hi <= |p|
    decreases hi - lo
  {
    if lo >= hi then false
    else if p[lo] != '.' then true
    else NonDotBetween(p, lo + 1, hi)
  }

  lemma {:induction false} NonDotBetweenIff(p: string, lo: int, hi: int)
    requires 0 <= lo && hi <= |p|
    ensures NonDotBetween(p, lo, hi) <==> exists k :: lo <= k < hi && p[k] != '.'
    decreases hi - lo
  {
    if lo < hi && p[lo] == '.' {
      NonDotBetweenIff(p, lo + 1, hi);
    }
  }

  /** Splits `p` into (root, ext). The extension starts at the last `.` of the
      final path component, provided some character of that component before
      the dot is not a dot itself (so `.bashrc` and `..bam` have none);
      otherwise it is empty. Root followed by extension is the path, and a
      non-empty extension is a dot followed by characters that are neither
      dots nor separators. */
  function SplitExt(p: string): (r: (string, string))
    ensures r.0 + r.1 == p
    ensures r.1 == [] || (r.1[0] == '.' && '.' !in r.1[1..] && '/' !in r.1)
  {
    var sepIndex := LastIndex(p, '/');
    var dotIndex := LastIndex(p, '.');
    LastIndexIsLast(p, '/');
    LastIndexIsLast(p, '.');
    if dotIndex > sepIndex && NonDotBetween(p, sepIndex + 1, dotIndex) then
      assert forall k :: 0 <= k < |p| - dotIndex - 1 ==> p[dotIndex..][1..][k] == p[dotIndex + 1 + k];
      (p[..dotIndex], p[dotIndex..])
    else
      (p, [])
  }

  /** The extension of `p`, dot included: a suffix of `p` that is empty or
      starts with a dot. */
  function Extension(p: string): (e: string)
    ensures |e| <= |p| && e == p[|p| - |e|..]
    ensures e == [] || e[0] == '.'
  {
    var r := SplitExt(p);
    assert p[|r.0|..] == r.1;
    r.1
  }

  /** `p` has a non-dot character followed, later in the same final path
      component, by a dot. */
  ghost predicate HasExtension(p: string)
  {
    exists i, j :: 0 <= i < j < |p| && p[i] != '.' && p[j] == '.' && '/' !in p[i..]
  }

  /** `p` ends in `.bam` and the final path component has a non-dot character
      before that suffix. */
  ghost predicate IsBamPath(p: string)
  {
    |p| >= 4 && p[|p| - 4..] == ".bam" &&
    exists i :: 0 <= i < |p| - 4 && p[i] != '.' && '/' !in p[i..]
  }

  /** The extension is non-empty exactly when the final component has a dot
      preceded by a non-dot character. */
  lemma ExtensionNonEmptyIff(p: string)
    ensures Extension(p) != [] <==> HasExtension(p)
  {
    var sepIndex := LastIndex(p, '/');
    var dotIndex := LastIndex(p, '.');
    LastIndexIsLast(p, '/');
    LastIndexIsLast(p, '.');
    if 0 <= dotIndex {
      NonDotBetweenIff(p, sepIndex + 1, dotIndex);
    }
    if Extension(p) != [] {
      var k :| sepIndex + 1 <= k < dotIndex && p[k] != '.';
      assert '/' !in p[k..] by {
        forall m | 0 <= m < |p[k..]| ensures p[k..][m] != '/' {
          assert p[k..][m] == p[k + m];
        }
      }
    }
    if HasExtension(p) {
      var i, j :| 0 <= i < j < |p| && p[i] != '.' && p[j] == '.' && '/' !in p[i..];
      forall m | i <= m < |p| ensures p[m] != '/' {
        assert p[i..][m - i] == p[m];
      }
      assert j <= dotIndex;
    }
  }

  /** The extension is exactly `.bam` when the path ends in `.bam` with a
      non-dot character of its final component before it. */
  lemma ExtensionIsBamIff(p: string)
    ensures Extension(p) == ".bam" <==> IsBamPath(p)
  {
    if Extension(p) == ".bam" {
      BamExtensionIsBamPath(p);
    }
    if IsBamPath(p) {
      BamPathHasBamExtension(p);
    }
  }

  lemma BamExtensionIsBamPath(p: string)
    requires Extension(p) == ".bam"
    ensures IsBamPath(p)
  {
    ExtensionNonEmptyIff(p);
    var n := |p|;
    var e := Extension(p);
    assert p == SplitExt(p).0 + e;
    assert p[n - 4..] == e;
    var i, j :| 0 <= i < j < n && p[i] != '.' && p[j] == '.' && '/' !in p[i..];
    forall m | n - 4 < m < n ensures p[m] != '.' {
      assert p[m] == p[n - 4..][m - (n - 4)];
    }
    assert i < n - 4;
  }

  lemma BamPathHasBamExtension(p: string)
    requires IsBamPath(p)
    ensures Extension(p) == ".bam"
  {
    var n := |p|;
    var i :| 0 <= i < n - 4 && p[i] != '.' && '/' !in p[i..];
    assert p[n - 4] == p[n - 4..][0] == '.';
    assert HasExtension(p);
    ExtensionNonEmptyIff(p);
    var e := Extension(p);
    var d := n - |e|;
    assert p == SplitExt(p).0 + e;
    assert p[d..] == e;
    assert p[d] == e[0] == '.';
    forall m | n - 4 < m < n ensures p[m] != '.' {
      assert p[m] == p[n - 4..][m - (n - 4)];
    }
    forall m | d < m < n ensures p[m] != '.' {
      assert p[m] == e[1..][m - d - 1];
    }
    assert d == n - 4;
  }
}
