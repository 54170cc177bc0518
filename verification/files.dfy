/**
 * The line cursor of src/File.php: a wrapper around a line-oriented file
 * reader that keeps its own 1-based `lineNumber` beside the reader's 0-based
 * position.
 *
 * The wrapped reader is modelled by the sequence of lines it enumerates and
 * its current position `pos` (the reader's own key()). Seeking past the end
 * leaves the position on the last line; reading a position past the end
 * yields "". The reader here returns the text at its position after every
 * move; it does not model that the real reader reads lazily.
 */
module Files {
  import opened Prelude

  /** The InvalidArgumentException thrown by seekLine for a line number below 1. */
  datatype FileError = InvalidArgument

  /** Index of the line the reader stops on when asked to seek past the end. */
  function LastIndex(lines: seq<string>): nat
  {
    if |lines| == 0 then 0 else |lines| - 1
  }

  /** What numberOfLines() reports: the last line's index plus one. */
  function LineCount(lines: seq<string>): (n: nat)
    ensures n >= 1 && n >= |lines|
    ensures |lines| > 0 ==> n == |lines|
  {
    LastIndex(lines) + 1
  }

  /** The text at a reader position; a position past the end reads as "". */
  function TextAt(lines: seq<string>, i: nat): string
  {
    if i < |lines| then lines[i] else ""
  }

  /** The text the model's reader holds after a seek to `n - 1`: line `n`, counting from 1, or the last line when `n` is past the end. */
  function LineAt(lines: seq<string>, n: int): (s: string)
    requires n >= 1
    ensures n <= |lines| ==> s == lines[n - 1]
    ensures n > |lines| > 0 ==> s == lines[|lines| - 1]
  {
    TextAt(lines, Min(n - 1, LastIndex(lines)))
  }

  class File {
    /** The lines of the file, as the wrapped reader enumerates them. */
    const lines: seq<string>
    /** The wrapped reader's position: 0-based index of its current line. */
    var pos: nat
    /** The cursor's own line number, as kept by the class. */
    var lineNumber: int

    constructor (content: seq<string>)
      ensures lines == content && pos == 0 && lineNumber == 0
    {
      lines := content;
      pos := 0;
      lineNumber := 0;
    }

    /** The text of the line the reader is positioned on. */
    function Current(): string
      reads this
    {
      TextAt(lines, pos)
    }

    /** key(): the cursor's own line number, not the reader's position. */
    method Key() returns (k: int)
      ensures k == lineNumber
    {
      k := lineNumber;
    }

    /** Moves the reader to the last line; the cached line number is left alone. */
    method SeekEnd()
      modifies this
      ensures pos == LastIndex(lines)
      ensures lineNumber == old(lineNumber)
    {
      pos := LastIndex(lines);
    }

    /**
     * numberOfLines(): seeks to the end and reports the last index plus one.
     * The cached line number is not updated, so it no longer matches `pos`.
     */
    method NumberOfLines() returns (n: int)
      modifies this
      ensures n == LineCount(lines)
      ensures pos == n - 1
      ensures lineNumber == old(lineNumber)
    {
      SeekEnd();
      n := pos + 1;
    }

    /**
     * seekLine(n): refuses a line number below 1; otherwise seeks the reader to
     * index n - 1 unless `n` already equals the cached line number.
     */
    method SeekLine(n: int) returns (r: Result<(), FileError>)
      modifies this
      ensures n < 1 ==> r == Err(InvalidArgument) && pos == old(pos) && lineNumber == old(lineNumber)
      ensures n >= 1 ==> r == Ok(()) && lineNumber == n
      ensures n >= 1 && n == old(lineNumber) ==> pos == old(pos)
      ensures n >= 1 && n != old(lineNumber) ==> pos == Min(n - 1, LastIndex(lines))
    {
      if n < 1 {
        return Err(InvalidArgument);
      }
      if n != lineNumber {
        pos := Min(n - 1, LastIndex(lines));
        lineNumber := n;
      }
      r := Ok(());
    }

    /** next(): advances the reader and the cached line number by one. */
    method Next()
      modifies this
      ensures pos == old(pos) + 1
      ensures lineNumber == old(lineNumber) + 1
    {
      pos := pos + 1;
      lineNumber := lineNumber + 1;
    }

    /** getNextLine(): advances like next() and returns the line it lands on. */
    method GetNextLine() returns (s: string)
      modifies this
      ensures pos == old(pos) + 1
      ensures lineNumber == old(lineNumber) + 1
      ensures s == TextAt(lines, pos)
    {
      Next();
      s := Current();
    }

    /**
     * getLine(n): with no argument, the next line; otherwise seeks to line `n`
     * and returns the reader's current line.
     */
    method GetLine(n: Option<int>) returns (r: Result<string, FileError>)
      modifies this
      ensures n.None? ==> pos == old(pos) + 1 && lineNumber == old(lineNumber) + 1 && r == Ok(TextAt(lines, pos))
      ensures n.Some? && n.value < 1 ==> r == Err(InvalidArgument) && pos == old(pos) && lineNumber == old(lineNumber)
      ensures n.Some? && n.value >= 1 ==> lineNumber == n.value && r == Ok(TextAt(lines, pos))
      ensures n.Some? && n.value >= 1 && n.value == old(lineNumber) ==> pos == old(pos)
      ensures n.Some? && n.value >= 1 && n.value != old(lineNumber) ==> pos == Min(n.value - 1, LastIndex(lines))
      ensures n.Some? && n.value >= 1 && n.value != old(lineNumber) ==> r == Ok(LineAt(lines, n.value))
    {
      if n.None? {
        var s := GetNextLine();
        return Ok(s);
      }
      var sought := SeekLine(n.value);
      if sought.Err? {
        return Err(sought.error);
      }
      r := Ok(Current());
    }

    /** rewind(): back to the first line, with the cached line number reset to 0. */
    method Rewind()
      modifies this
      ensures pos == 0 && lineNumber == 0
    {
      pos := 0;
      lineNumber := 0;
    }
  }

  /**
   * Because numberOfLines() moves the reader but keeps the cached line number,
   * asking again for the line last sought does not seek: the reader stays at
   * the last index (2) instead of going back to index 1.
   */
  method GetLineAfterCountSkipsSeek() returns (first: nat, again: nat)
    ensures first == 1
    ensures again == 2
  {
    var f := new File(["a", "b", "c"]);
    var r := f.GetLine(Some(2));
    first := f.pos;
    var n := f.NumberOfLines();
    r := f.GetLine(Some(2));
    again := f.pos;
  }

  /**
   * rewind() and next() count from 0 while getLine() counts from 1, so after
   * one next() the cached number is 1 and getLine(1) does not seek: the
   * reader stays at index 1 instead of going to index 0.
   */
  method GetLineAfterNextSkipsSeek() returns (position: nat)
    ensures position == 1
  {
    var f := new File(["a", "b", "c"]);
    f.Rewind();
    f.Next();
    var r := f.GetLine(Some(1));
    position := f.pos;
  }
}
