/**
 * The path handling of src/Handler.php: removing the project's base path
 * from a frame's file (str_replace) and the dependency-directory test, a
 * regular expression that looks for a segment named `vendor` with a slash
 * or a backslash on each side.
 */
module FramePaths {

  /** `pat` occurs in `s` starting at index `i`. */
  predicate MatchAt(s: string, pat: string, i: int)
  {
    0 <= i && i + |pat| <= |s| && s[i..i + |pat|] == pat
  }

  /**
   * str_replace(pat, "", s): scans left to right and removes every
   * non-overlapping occurrence of `pat`. An empty `pat` leaves `s` as it is.
   */
  function ReplaceAll(s: string, pat: string): (r: string)
    ensures |r| <= |s|
    decreases |s|
  {
    if |pat| == 0 || |s| < |pat| then s
    else if s[..|pat|] == pat then ReplaceAll(s[|pat|..], pat)
    else [s[0]] + ReplaceAll(s[1..], pat)
  }

  /** The file path of a frame with the project's base path removed. */
  function StripBase(path: string, basePath: string): (r: string)
    ensures |r| <= |path|
    ensures |basePath| == 0 ==> r == path
  {
    ReplaceAll(path, basePath)
  }

  /** A match in the tail of `s` is a match in `s`, one index further on. */
  lemma MatchInTail(s: string, pat: string, i: int)
    requires |s| > 0 && 0 <= i
    ensures MatchAt(s[1..], pat, i) <==> MatchAt(s, pat, i + 1)
  {
  }

  /** Where `pat` does not start at the first character, that character is kept. */
  lemma ReplaceAllKeepsFirst(s: string, pat: string)
    requires |pat| > 0 && |s| >= |pat| && !MatchAt(s, pat, 0)
    ensures ReplaceAll(s, pat) == [s[0]] + ReplaceAll(s[1..], pat)
  {
  }

  /** Re-attaching the first character to a split of the tail gives the same split of `s`. */
  lemma ConsSplit(s: string, k: int, rest: string)
    requires 0 < k <= |s|
    ensures [s[0]] + (s[1..][..k - 1] + rest) == s[..k] + rest
    ensures s[1..][k - 1..] == s[k..]
  {
    assert [s[0]] + s[1..][..k - 1] == s[..k];
  }

  /** Characters up to the first occurrence of `pat` are kept as they are. */
  lemma {:induction false} ReplaceAllKeepsUnmatched(s: string, pat: string, k: int)
    requires |pat| > 0 && 0 <= k <= |s|
    requires forall i :: 0 <= i < k ==> !MatchAt(s, pat, i)
    ensures ReplaceAll(s, pat) == s[..k] + ReplaceAll(s[k..], pat)
    decreases k
  {
    if k == 0 {
      assert s[..0] + s[0..] == s;
    } else if |s| < |pat| {
      assert s[..k] + s[k..] == s;
    } else {
      var t := s[1..];
      ReplaceAllKeepsFirst(s, pat);
      forall i | 0 <= i < k - 1
        ensures !MatchAt(t, pat, i)
      {
        MatchInTail(s, pat, i);
      }
      ReplaceAllKeepsUnmatched(t, pat, k - 1);
      ConsSplit(s, k, ReplaceAll(t[k - 1..], pat));
    }
  }

  /** A path in which the base path never occurs comes back unchanged. */
  lemma ReplaceAllWithoutMatch(s: string, pat: string)
    requires |pat| > 0
    requires forall i :: 0 <= i < |s| ==> !MatchAt(s, pat, i)
    ensures ReplaceAll(s, pat) == s
  {
    ReplaceAllKeepsUnmatched(s, pat, |s|);
    assert s[|s|..] == [];
  }

  /** An absolute path under the project root loses the root and keeps the rest. */
  lemma StripBaseOfProjectPath(basePath: string, relative: string)
    requires |basePath| > 0
    requires forall i :: 0 <= i < |relative| ==> !MatchAt(relative, basePath, i)
    ensures StripBase(basePath + relative, basePath) == relative
  {
    var s := basePath + relative;
    assert s[..|basePath|] == basePath;
    assert s[|basePath|..] == relative;
    ReplaceAllWithoutMatch(relative, basePath);
  }

  /** The removal is not limited to a prefix: an occurrence further in is removed too. */
  lemma StripBaseRemovesInnerOccurrence(before: string, basePath: string, after: string)
    requires |basePath| > 0
    requires forall i :: 0 <= i < |before| ==> !MatchAt(before + basePath + after, basePath, i)
    ensures StripBase(before + basePath + after, basePath) == before + StripBase(after, basePath)
  {
    var s := before + basePath + after;
    ReplaceAllKeepsUnmatched(s, basePath, |before|);
    var rest := s[|before|..];
    assert rest == basePath + after;
    assert rest[..|basePath|] == basePath;
    assert rest[|basePath|..] == after;
    assert s[..|before|] == before;
  }

  predicate IsSeparator(c: char)
  {
    c == '/' || c == '\\'
  }

  /** A separator, the word `vendor` and a separator start at index `i`. */
  predicate VendorSegmentAt(p: string, i: int)
  {
    0 <= i && i + 8 <= |p| && IsSeparator(p[i]) && p[i + 1..i + 7] == "vendor" && IsSeparator(p[i + 7])
  }

  /** The path lies in a dependency directory: it contains a `vendor` segment, either slash kind on either side. */
  predicate IsVendorPath(p: string)
    ensures IsVendorPath(p) ==> |p| >= 8
  {
    exists i :: 0 <= i <= |p| - 8 && VendorSegmentAt(p, i)
  }

  /** The regular-expression search as a left-to-right scan over start positions. */
  function ScanVendor(p: string): bool
    decreases |p|
  {
    if |p| < 8 then false else VendorSegmentAt(p, 0) || ScanVendor(p[1..])
  }

  /** The scan finds a match exactly when a `vendor` segment occurs somewhere in the path. */
  lemma {:induction false} ScanVendorAgrees(p: string)
    ensures ScanVendor(p) <==> IsVendorPath(p)
    decreases |p|
  {
    if |p| >= 8 {
      var t := p[1..];
      ScanVendorAgrees(t);
      if IsVendorPath(t) {
        var i :| 0 <= i <= |t| - 8 && VendorSegmentAt(t, i);
        assert p[i + 1 + 1..i + 1 + 7] == t[i + 1..i + 7];
        assert VendorSegmentAt(p, i + 1);
      }
      if IsVendorPath(p) {
        var i :| 0 <= i <= |p| - 8 && VendorSegmentAt(p, i);
        if i > 0 {
          assert t[i - 1 + 1..i - 1 + 7] == p[i + 1..i + 7];
          assert VendorSegmentAt(t, i - 1);
        }
      }
    }
  }

  /** Both slash kinds count, on either side. */
  lemma VendorPatternExamples()
    ensures IsVendorPath("/vendor/") && IsVendorPath("\\vendor\\") && IsVendorPath("a/vendor\\b")
  {
    assert VendorSegmentAt("/vendor/", 0);
    assert VendorSegmentAt("\\vendor\\", 0);
    assert VendorSegmentAt("a/vendor\\b", 1);
  }

  /** `vendors`, `myvendor` and a trailing `/vendor` without a separator after it are not vendor paths. */
  lemma NonVendorPatternExamples()
    ensures !IsVendorPath("/vendors/") && !IsVendorPath("/myvendor/") && !IsVendorPath("app/vendor")
  {
    ScanVendorAgrees("/vendors/");
    ScanVendorAgrees("/myvendor/");
    ScanVendorAgrees("app/vendor");
  }
}
