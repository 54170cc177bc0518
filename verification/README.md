# Lucent fault-context extraction, modelled in Dafny

Lucent is a Laravel package that reports unhandled exceptions to a remote
collector. Before sending, its `Handler` picks the one stack frame that
belongs to the application rather than to `vendor/` dependencies, and its
`Codesnippet` reads about ten lines of source around that frame through
`File`, a line cursor wrapped around PHP's `SplFileObject`. This project
models those three classes and proves what they promise.

- `prelude.dfy` (`Prelude`): `Option`, `Result`, `Min`, `Max`.
- `files.dfy` (`Files`): class `File`. The wrapped reader is the sequence of
  lines it enumerates plus its 0-based position `pos`. The class's own
  1-based `lineNumber` is kept beside it.
- `snippets.dfy` (`Snippets`): the window formula `WindowBounds`, the line
  cleaning `CleanLine` (cut to 250 characters, then `rtrim`), the snippet
  specification `SnippetOf`, and class `Codesnippet` whose `Get` loop is
  proved to compute it.
- `framepaths.dfy` (`FramePaths`): `str_replace` of the base path
  (`ReplaceAll`/`StripBase`) and the `vendor`-segment regular expression
  (`IsVendorPath`, with the left-to-right scan `ScanVendor` as its partner).
- `handling.dfy` (`Handling`): frames (a frame's `file` and `line` are named
  fields; `rest` holds its other keys and never "file" or "line"), faults, the stack record, the
  selection specification `SelectFrames`, and class `Handler` with
  `GetTracersAndSnippet` (the `foreach` with its `break`),
  `GenerateCodeSnippet`, `PrepareStackTrace` and the guard of `SendException`.

The file system is a `map` from path to lines: a path that is not a key does
not exist. The clock is a `now` string parameter. JSON encoding is not
modelled: traces, snippets and the record are kept as the structured values
the handler would encode.

The window near the end of a file is cut off, not shifted back. With 20 lines
and line 20 the snippet is lines 15 to 20, six lines
(`Snippets.SnippetCutAtEnd`). One might expect `min(10, total)` lines; the
code does not always give that. When the window is clamped at line 1 it does
have `min(10, total)` lines (`Snippets.SnippetClampedAtTop`), and when it fits
inside the file it has 10 (`Snippets.SnippetFullWindow`); only the cut at the
bottom shortens it.

## Model

| member | source | states |
|---|---|---|
| `Files.File.constructor` | src/File.php:19-24 | a new cursor is at the reader's first line with `lineNumber` 0 |
| `Files.File.Key` | src/File.php:135-138 | `key()` returns the cached `lineNumber`, not the reader's position |
| `Files.File.SeekEnd` | src/File.php:80-83 | the reader moves to the last line; `lineNumber` is untouched |
| `Files.File.NumberOfLines` | src/File.php:34-39 | returns the last line's index + 1 (at least 1), leaves the reader on the last line and `lineNumber` unchanged, so `lineNumber` goes stale |
| `Files.File.SeekLine` | src/File.php:94-104 | `n < 1` raises `InvalidArgument` (the `InvalidArgumentException`) and changes nothing; otherwise `lineNumber` becomes `n`, the reader stays put when `n` already equals `lineNumber`, and otherwise moves to index `n - 1` (clamped to the last line) |
| `Files.File.GetLine` | src/File.php:48-57 | no argument: behaves as `getNextLine`; `n < 1`: the error, cursor unchanged; `n >= 1`: `key()` is then `n`; when `n` differs from the old `lineNumber` the reader seeks to index `n - 1` (clamped to the last index) and the result is the model's reader text there, which is line `n` when `n` is within the file; when `n` equals the old `lineNumber` the reader does not move |
| `Files.File.GetNextLine` | src/File.php:64-70 | the reader's position and `lineNumber` both advance by exactly one, and the line at the new position is returned |
| `Files.File.Next` | src/File.php:148-152 | the reader's position and `lineNumber` both advance by exactly one |
| `Files.File.Rewind` | src/File.php:114-118 | the reader goes back to index 0 and `lineNumber` to 0 |
| `Files.LineAt` | src/File.php:100-103 | what the model's reader holds after a seek to `n - 1`: line `n` of the file when `n` is within it, the last line when past the end (where `SplFileObject` itself has no current line, see Left out) |
| `Files.GetLineAfterCountSkipsSeek` | src/File.php:36-38 | on a three-line file: after `getLine(2)` the reader is at index 1; after `numberOfLines()` the same `getLine(2)` does not seek (the stale `lineNumber` equals 2, :100), so the reader stays at index 2 |
| `Files.GetLineAfterNextSkipsSeek` | src/File.php:114-118 | on a three-line file: after `rewind()` and `next()` the cached number is 1 (counted from 0), so `getLine(1)` does not seek (:100) and the reader stays at index 1 instead of index 0 |
| `Snippets.CeilHalf` | src/Codesnippet.php:68 | the result is `ceil(c / 2)` for every integer `c` |
| `Snippets.WindowBounds` | src/Codesnippet.php:66-72 | the start is at least 1 and is either 1 or `surroundingLine - ceil(count/2)`; the end is at most the total and at most `start + count - 1`, and equals one of the two |
| `Snippets.TrimRight` | src/Codesnippet.php:48 | `rtrim` returns a prefix with no trailing whitespace, and everything it dropped is whitespace |
| `Snippets.CleanLine` | src/Codesnippet.php:48 | the stored text is a prefix of the line of at most 250 characters; only whitespace inside the first 250 characters is dropped; a short line with no trailing whitespace is kept whole |
| `Snippets.SnippetOf` | src/Codesnippet.php:34-57 | a missing file gives an empty map; every key is between 1 and the line count; every value is at most 250 characters and is the cleaned file line at that key |
| `Snippets.Range` | src/Codesnippet.php:47-51 | the set holds exactly the integers from `lo` to `hi` |
| `Snippets.RangeSize` | src/Codesnippet.php:47-51 | the range from `lo` to `hi` holds `max(hi - lo + 1, 0)` numbers |
| `Snippets.SnippetKeys` | src/Codesnippet.php:47-51 | the keys of an existing file's snippet are exactly the contiguous range from the window's start to its end |
| `Snippets.SnippetSize` | src/Codesnippet.php:66-72 | the snippet has `max(end - start + 1, 0)` lines, never more than the window size and never more than the file's line count |
| `Snippets.SnippetHoldsTarget` | src/Codesnippet.php:19 | for a line within the file and a window of at least two lines (10 here), that line is a key of the snippet |
| `Snippets.SnippetFullWindow` | src/Codesnippet.php:68-69 | when the window fits between line 1 and the last line, the snippet has exactly `count` lines |
| `Snippets.SnippetClampedAtTop` | src/Codesnippet.php:68-69 | when the start is clamped at line 1 (for example a fault on line 1), the snippet has `min(count, total)` lines |
| `Snippets.SnippetCutAtEnd` | src/Codesnippet.php:68-69 | on the last line `t > 5` of a file, the default window is lines `t - 5` to `t`: six lines, cut off rather than shifted back |
| `Snippets.SnippetPastEnd` | src/Codesnippet.php:47-51 | when the window starts past the last line the snippet is empty |
| `Snippets.WindowReadStep` | src/Codesnippet.php:47-51 | storing the cleaned text of the next line extends a window read so far by exactly that line |
| `Snippets.WindowReadIsSnippet` | src/Codesnippet.php:47-51 | a map holding the cleaned line at every key of the window, and no other key, is the snippet |
| `Snippets.Codesnippet.constructor` | src/Codesnippet.php:16-19 | a new extractor is centred on line 1; its window size is the constant 10 |
| `Snippets.Codesnippet.SurroundingLine` | src/Codesnippet.php:21-26 | sets only the line of interest and returns the same object |
| `Snippets.Codesnippet.Get` | src/Codesnippet.php:34-57 | the loop over a `File` cursor returns exactly `SnippetOf` the file: empty when the file is missing; the read that could throw never does, because the window starts at line 1 or later |
| `FramePaths.ReplaceAll` | src/Handler.php:156 | removing occurrences never makes a path longer |
| `FramePaths.MatchInTail` | src/Handler.php:156 | an occurrence in the tail of a string is an occurrence one index further on in the string |
| `FramePaths.ReplaceAllKeepsUnmatched` | src/Handler.php:156 | the characters before the first occurrence are kept unchanged and the rest is processed the same way |
| `FramePaths.ReplaceAllWithoutMatch` | src/Handler.php:161 | a path in which the base path never occurs is returned unchanged |
| `FramePaths.StripBaseOfProjectPath` | src/Handler.php:161 | base path + relative path becomes the relative path |
| `FramePaths.StripBaseRemovesInnerOccurrence` | src/Handler.php:173 | an occurrence of the base path after the start is removed too: `str_replace` is not a prefix strip |
| `FramePaths.StripBase` | src/Handler.php:156-178 | `str_replace(base_path(), "", path)`: every non-overlapping occurrence of the base path removed, left to right; the result is never longer, and an empty base path leaves the path unchanged |
| `FramePaths.IsVendorPath` | src/Handler.php:158-175 | the `preg_match` test: a slash or backslash, `vendor`, a slash or backslash occur somewhere in the path; so a path shorter than 8 characters never matches |
| `FramePaths.ScanVendorAgrees` | src/Handler.php:158 | the left-to-right regex scan matches exactly when a separator, `vendor`, separator sequence occurs somewhere in the path |
| `FramePaths.VendorPatternExamples` | src/Handler.php:175 | `/vendor/`, `\vendor\` and mixed separators are vendor |
| `FramePaths.NonVendorPatternExamples` | src/Handler.php:175 | `/vendors/`, `/myvendor/` and a trailing `app/vendor` are application code: the segment needs a separator on both sides |
| `Handling.Lookup` | src/Codesnippet.php:36-38 | a file is found exactly when it exists, with its own lines |
| `Handling.IsApplicationPath` | src/Handler.php:156-158 | `!preg_match` applied to the path with the base path stripped: a frame is application code when the stripped path has no `vendor` segment, in particular whenever it is shorter than 8 characters |
| `Handling.IsSet` | src/Handler.php:52 | the truthiness of a setting in the guard: a set value is present and non-empty, and "0" counts as unset |
| `Handling.FirstApplicationFrame` | src/Handler.php:171-186 | the result is the index of a frame that is application code with every earlier frame vendor code, or nothing when every frame is vendor code |
| `Handling.FirstFrameIsUnique` | src/Handler.php:171-186 | the first application frame is determined by that frame and the frames before it |
| `Handling.SelectFrames` | src/Handler.php:154-188 | the traces and snippets lists always have equal length, 0 or 1 |
| `Handling.ThrowSiteWins` | src/Handler.php:156-169 | an application throw site gives exactly one trace (only stripped file and line) and its snippet, whatever the trace holds |
| `Handling.FirstCallerWins` | src/Handler.php:171-186 | with a vendor throw site, the first application frame is reported with its file stripped and its other keys kept, and frames after it never affect the result |
| `Handling.AllVendorSelectsNothing` | src/Handler.php:154-155 | when the throw site and every frame are vendor code both lists are empty |
| `Handling.SelectedTraceIsStripped` | src/Handler.php:160-163 | a reported trace is the throw site or a trace frame with its file stripped of the base path and its line unchanged, and its snippet is taken from the unstripped file at that line |
| `Handling.ApplicationFaultEndToEnd` | src/Handler.php:156-169 | a fault at line 42 of `app/Foo` (at least 42 lines) is reported with that frame and a snippet holding line 42's cleaned text |
| `Handling.Handler.constructor` | src/Handler.php:17-23 | a new handler holds no stack trace, request, user or app details |
| `Handling.Handler.GenerateCodeSnippet` | src/Handler.php:198-203 | the snippet of the named file around the given line, with the default window of 10 |
| `Handling.Handler.GetTracersAndSnippet` | src/Handler.php:152-189 | the `foreach` with its `break` returns exactly `SelectFrames` |
| `Handling.Handler.PrepareStackTrace` | src/Handler.php:128-144 | the record's class, message, code, file and line are the throw site's own, whichever frame was selected; severity is "Error"; trace and snippets are the selection; no other field changes |
| `Handling.Handler.SendException` | src/Handler.php:50-75 | with the key or the URL unset, false and no request; otherwise one POST to `<url>/register-exception` with `Bearer <key>` and the four fields, returning whether the transport succeeded |

## Left out

- JSON encoding (`json_encode`, including the nested encoding of traces, snippets and headers): the model keeps the values before encoding.
- The Carbon timestamp: it is the `now` parameter of `PrepareStackTrace`.
- `register`, `prepareRequest`, `prepareAppDetail` and the user lookup (src/Handler.php:31-43, 86-120): they read framework globals (`request()`, `app()`, `auth()`, `phpversion()`). The `request`, `user` and `app` fields exist but nothing in the model fills them.
- Handling.Handler.SendException: the HTTP call itself is not modelled. Its outcome, including any exception Guzzle raises (which the source turns into false), is the `delivered` parameter.
- `SplFileObject` details: how lines are split (a trailing newline yields a final empty line) and `eof()`. The file is the sequence of lines the reader enumerates; seeking past the end leaves the reader's `key()` on the last index, and a position past the end reads as "". For this reason `File::valid()` (src/File.php:159-162) is not modelled.
- Files.LineAt, Files.File.GetNextLine, Files.File.GetLine, Files.GetLineAfterCountSkipsSeek, Files.GetLineAfterNextSkipsSeek: the model's reader returns the text at its position after every move. `SplFileObject` does not: `next()` only advances its counter without reading, `current()` reads lazily from the stream position (so right after `next()` from a fresh or rewound reader it still yields the first line), and a seek past the end leaves no current line (`current()` then returns false, which `getLine`'s `string` return makes ""). The model therefore states reader positions and line numbers for these calls, and its text results match `SplFileObject` only where a seek lands within the file. `Codesnippet.get` is unaffected: every `getLine` there seeks.
- `File::current()` (src/File.php:125-128) is the contract-free helper `File.Current`.
- An unreadable but existing file (the `SplFileObject` constructor throwing) is not distinguished from a readable one; the missing-file case is.
- `substr` counts bytes; the model counts characters.
- Trace frames without a `file` or `line` key (frames of internal functions) are not modelled: every frame has both. In the source such a frame is not harmless: a missing `file` reads as null, `str_replace` turns it into "", which has no `vendor` segment, so the frame is selected; `generateCodeSnippet(string $traceLine, string $traceFile)` (src/Handler.php:198) then receives null, a TypeError that nothing in `Handler` catches.
- Type juggling of `line` into `generateCodeSnippet(string ...)` and `surroundingLine(int ...)` is not modelled: lines are integers throughout.
- config/lucent.php, src/LucentServiceProvider.php and src/Facades/Lucent.php are not part of this model: they hold configuration and container wiring only. The configured `line_count` is never read; the window size stays 10.
