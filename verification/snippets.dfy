/**
 * The snippet extractor of src/Codesnippet.php: a window of lines around a
 * line of interest, each line cut to 250 characters and right-trimmed,
 * keyed by its 1-based line number.
 */
module Snippets {
  import opened Prelude
  import opened Files

  /** The window size the extractor is built with; nothing ever changes it. */
  const DefaultLineCount: int := 10

  /** How many leading characters of a line are kept. */
  const MaxLineWidth: nat := 250

  /** The characters rtrim() strips by default: space, tab, newline, carriage return, NUL and vertical tab. */
  predicate IsTrimmed(c: char)
  {
    c == ' ' || c == '\t' || c == '\n' || c == '\r' || c == '\0' || c as int == 0x0B
  }

  /** ceil(c / 2) for any integer c. */
  function CeilHalf(c: int): (h: int)
    ensures 2 * h - 1 <= c <= 2 * h
  {
    (c + 1) / 2
  }

  /**
   * getBounds: the first and last line of the window. The start is clamped
   * at line 1 and the end at the last line; near the end the window is cut
   * off, not shifted back.
   */
  function WindowBounds(surroundingLine: int, lineCount: int, total: int): (b: (int, int))
    ensures b.0 >= 1 && b.0 >= surroundingLine - CeilHalf(lineCount)
    ensures b.0 == 1 || b.0 == surroundingLine - CeilHalf(lineCount)
    ensures b.1 <= total && b.1 <= b.0 + lineCount - 1
    ensures b.1 == total || b.1 == b.0 + lineCount - 1
  {
    var start := Max(surroundingLine - CeilHalf(lineCount), 1);
    (start, Min(start + lineCount - 1, total))
  }

  /** rtrim(): drops trailing whitespace and nothing else. */
  function TrimRight(s: string): (r: string)
    ensures |r| <= |s| && r == s[..|r|]
    ensures |r| == 0 || !IsTrimmed(r[|r| - 1])
    ensures forall i :: |r| <= i < |s| ==> IsTrimmed(s[i])
  {
    if |s| > 0 && IsTrimmed(s[|s| - 1]) then TrimRight(s[..|s| - 1]) else s
  }

  /** rtrim(substr(line, 0, 250)): the text stored for one line. */
  function CleanLine(s: string): (r: string)
    ensures |r| <= Min(|s|, MaxLineWidth) && r == s[..|r|]
    ensures |r| == 0 || !IsTrimmed(r[|r| - 1])
    ensures forall i :: |r| <= i < Min(|s|, MaxLineWidth) ==> IsTrimmed(s[i])
    ensures |s| <= MaxLineWidth && (|s| == 0 || !IsTrimmed(s[|s| - 1])) ==> r == s
  {
    TrimRight(s[..Min(|s|, MaxLineWidth)])
  }

  /**
   * The snippet for a file: empty when the file does not exist, otherwise
   * every line of the window, cleaned, under its line number.
   */
  function SnippetOf(file: Option<seq<string>>, surroundingLine: int, lineCount: int): (code: map<int, string>)
    ensures file.None? ==> code == map[]
    ensures forall k :: k in code ==> 1 <= k && |code[k]| <= MaxLineWidth
    ensures file.Some? ==> forall k :: k in code ==> k <= LineCount(file.value)
    ensures file.Some? && |file.value| > 0 ==>
      forall k :: k in code ==> k <= |file.value| && code[k] == CleanLine(file.value[k - 1])
  {
    match file
    case None => map[]
    case Some(lines) =>
      var b := WindowBounds(surroundingLine, lineCount, LineCount(lines));
      map k | b.0 <= k <= b.1 :: CleanLine(LineAt(lines, k))
  }

  /** The integers from lo to hi, as a set. */
  function Range(lo: int, hi: int): (r: set<int>)
    ensures forall k :: k in r <==> lo <= k <= hi
    decreases hi - lo
  {
    if hi < lo then {} else Range(lo, hi - 1) + {hi}
  }

  lemma {:induction false} RangeSize(lo: int, hi: int)
    ensures |Range(lo, hi)| == Max(hi - lo + 1, 0)
    decreases hi - lo
  {
    if hi >= lo {
      RangeSize(lo, hi - 1);
    }
  }

  /** The keys of a snippet of an existing file are exactly the window's lines. */
  lemma SnippetKeys(lines: seq<string>, surroundingLine: int, lineCount: int)
    ensures var b := WindowBounds(surroundingLine, lineCount, LineCount(lines));
      SnippetOf(Some(lines), surroundingLine, lineCount).Keys == Range(b.0, b.1)
  {
  }

  /** A snippet never holds more lines than the window size, nor more than the file has. */
  lemma {:induction false} SnippetSize(lines: seq<string>, surroundingLine: int, lineCount: int)
    ensures var b := WindowBounds(surroundingLine, lineCount, LineCount(lines));
      |SnippetOf(Some(lines), surroundingLine, lineCount)| == Max(b.1 - b.0 + 1, 0)
    ensures |SnippetOf(Some(lines), surroundingLine, lineCount)| <= Max(lineCount, 0)
    ensures |SnippetOf(Some(lines), surroundingLine, lineCount)| <= LineCount(lines)
  {
    var code := SnippetOf(Some(lines), surroundingLine, lineCount);
    var b := WindowBounds(surroundingLine, lineCount, LineCount(lines));
    SnippetKeys(lines, surroundingLine, lineCount);
    assert |code| == |code.Keys|;
    RangeSize(b.0, b.1);
  }

  /** A line inside the file is always part of its own snippet when the window has at least two lines. */
  lemma SnippetHoldsTarget(lines: seq<string>, surroundingLine: int, lineCount: int)
    requires 1 <= surroundingLine <= LineCount(lines)
    requires lineCount >= 2
    ensures surroundingLine in SnippetOf(Some(lines), surroundingLine, lineCount)
  {
  }

  /** Away from both ends of the file the snippet has exactly `lineCount` lines. */
  lemma SnippetFullWindow(lines: seq<string>, surroundingLine: int, lineCount: int)
    requires lineCount >= 0
    requires surroundingLine - CeilHalf(lineCount) >= 1
    requires surroundingLine - CeilHalf(lineCount) + lineCount - 1 <= LineCount(lines)
    ensures |SnippetOf(Some(lines), surroundingLine, lineCount)| == lineCount
  {
    SnippetSize(lines, surroundingLine, lineCount);
  }

  /** When the window is clamped at line 1 it holds `min(lineCount, total)` lines. */
  lemma SnippetClampedAtTop(lines: seq<string>, surroundingLine: int, lineCount: int)
    requires lineCount >= 0
    requires surroundingLine - CeilHalf(lineCount) < 1
    ensures |SnippetOf(Some(lines), surroundingLine, lineCount)| == Min(lineCount, LineCount(lines))
  {
    SnippetSize(lines, surroundingLine, lineCount);
  }

  /**
   * On the last line of a file of more than five lines the default window is
   * cut to six lines: it starts five lines up and is not shifted back.
   */
  lemma SnippetCutAtEnd(lines: seq<string>)
    requires |lines| > 5
    ensures SnippetOf(Some(lines), |lines|, DefaultLineCount).Keys == Range(|lines| - 5, |lines|)
    ensures |SnippetOf(Some(lines), |lines|, DefaultLineCount)| == 6
  {
    SnippetSize(lines, |lines|, DefaultLineCount);
  }

  /** A line of interest far enough past the end of the file gives an empty snippet. */
  lemma SnippetPastEnd(lines: seq<string>, surroundingLine: int, lineCount: int)
    requires surroundingLine - CeilHalf(lineCount) > LineCount(lines)
    ensures SnippetOf(Some(lines), surroundingLine, lineCount) == map[]
  {
  }

  /** `code` holds the cleaned lines `lo` to `next - 1` of the file, under their line numbers, and nothing else. */
  ghost predicate WindowRead(lines: seq<string>, lo: int, next: int, code: map<int, string>)
  {
    1 <= lo && code.Keys == Range(lo, next - 1)
    && forall k :: k in code ==> 1 <= k && code[k] == CleanLine(LineAt(lines, k))
  }

  /** Storing the next cleaned line extends what has been read by one line. */
  lemma WindowReadStep(lines: seq<string>, lo: int, next: int, code: map<int, string>)
    requires lo <= next && WindowRead(lines, lo, next, code)
    ensures WindowRead(lines, lo, next + 1, code[next := CleanLine(LineAt(lines, next))])
  {
  }

  /** A map read line by line over the whole window is the snippet. */
  lemma WindowReadIsSnippet(lines: seq<string>, surroundingLine: int, lineCount: int, code: map<int, string>, next: int)
    requires var b := WindowBounds(surroundingLine, lineCount, LineCount(lines));
      next > b.1 && (next == b.0 || next == b.1 + 1) && WindowRead(lines, b.0, next, code)
    ensures code == SnippetOf(Some(lines), surroundingLine, lineCount)
  {
  }

  class Codesnippet {
    /** The line the window is centred on. */
    var surroundingLine: int
    /** The window size; the class offers no way to change it. */
    const snippetLineCount: int := DefaultLineCount

    constructor ()
      ensures surroundingLine == 1
    {
      surroundingLine := 1;
    }

    /** surroundingLine(n): sets the line of interest and returns the same object for chaining. */
    method SurroundingLine(n: int) returns (self: Codesnippet)
      modifies this
      ensures self == this
      ensures surroundingLine == n
    {
      surroundingLine := n;
      self := this;
    }

    /**
     * get(fileName): nothing for a missing file; otherwise counts the lines,
     * computes the window and reads it line by line through a File cursor.
     * A read that throws yields an empty map.
     */
    method Get(file: Option<seq<string>>) returns (code: map<int, string>)
      ensures code == SnippetOf(file, surroundingLine, snippetLineCount)
    {
      if file.None? {
        return map[];
      }
      var lines := file.value;
      var f := new File(lines);
      var total := f.NumberOfLines();
      var bounds := WindowBounds(surroundingLine, snippetLineCount, total);
      var current, end := bounds.0, bounds.1;
      code := map[];
      while current <= end
        invariant bounds.0 <= current
        invariant current == bounds.0 || current <= end + 1
        invariant f.lines == lines && f.lineNumber < current
        invariant WindowRead(lines, bounds.0, current, code)
        decreases end - current
      {
        assert 1 <= current && current != f.lineNumber;
        var line := f.GetLine(Some(current));
        match line
        case Err(_) =>
          // the catch of any exception: unreachable, as the window starts at line 1 or later
          assert false;
        case Ok(text) =>
          WindowReadStep(lines, bounds.0, current, code);
          code := code[current := CleanLine(text)];
          current := current + 1;
      }
      WindowReadIsSnippet(lines, surroundingLine, snippetLineCount, code, current);
    }
  }
}
