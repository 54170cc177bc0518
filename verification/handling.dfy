/**
 * The fault handler of src/Handler.php: choosing the one application frame
 * to report, building the stack record around it, and the guard in front of
 * the transport.
 *
 * JSON encoding is not modelled: the record and the lists it holds are kept
 * as structured values where the handler would encode them to strings. The
 * file system is a map from path to lines, the clock a string parameter.
 */
module Handling {
  import opened Prelude
  import opened FramePaths
  import opened Snippets

  /**
   * One call-stack entry: its file, its line and whatever other keys it
   * carries (function, class, type, args). `rest` holds only those other
   * keys, never "file" or "line", which are the named fields.
   */
  datatype Frame = Frame(file: string, line: int, rest: map<string, string>)

  /** A thrown error: class name, message, code, throw site and the caller frames of getTrace(). */
  datatype Fault = Fault(name: string, message: string, code: int, file: string, line: int, trace: seq<Frame>)

  /** The traces list and the code-snippets list of getTracersAndSnippet. */
  datatype Selection = Selection(traces: seq<Frame>, snippets: seq<map<int, string>>)

  /** The record prepareStackTrace builds. */
  datatype StackRecord = StackRecord(
    exceptionName: string, message: string, code: int, file: string, line: int,
    occurrenceTimes: string, severity: string,
    trace: seq<Frame>, codeSnippet: seq<map<int, string>>)

  /** The two settings the transport needs; PHP treats a missing, empty or "0" value as unset. */
  datatype Config = Config(lucentKey: Option<string>, lucentUrl: Option<string>)

  /** The JSON body of the request sent to the collector. */
  datatype Payload = Payload(stackTrace: Option<StackRecord>, requestDetail: Option<string>, user: Option<string>, app: Option<string>)

  /** One POST: its URL, its Authorization header and its body. */
  datatype Post = Post(url: string, authorization: string, body: Payload)

  const Severity: string := "Error"
  const RegisterPath: string := "/register-exception"

  /** The setting has a value that PHP reads as true. */
  predicate IsSet(v: Option<string>)
    ensures IsSet(v) ==> v.Some? && |v.value| > 0
    ensures v == Some("0") ==> !IsSet(v)
  {
    v.Some? && v.value != "" && v.value != "0"
  }

  /** file_exists and reading: the file's lines, or nothing when it does not exist. */
  function Lookup(files: map<string, seq<string>>, path: string): (r: Option<seq<string>>)
    ensures r.Some? <==> path in files
    ensures r.Some? ==> r.value == files[path]
  {
    if path in files then Some(files[path]) else None
  }

  /** Application code: the path, with the base path removed, has no `vendor` segment. */
  predicate IsApplicationPath(path: string, basePath: string)
    ensures |StripBase(path, basePath)| < 8 ==> IsApplicationPath(path, basePath)
  {
    !IsVendorPath(StripBase(path, basePath))
  }

  /** The index of the first application frame, if any, in trace order. */
  function FirstApplicationFrame(frames: seq<Frame>, basePath: string): (k: Option<nat>)
    ensures k.Some? ==> k.value < |frames| && IsApplicationPath(frames[k.value].file, basePath)
    ensures k.Some? ==> forall j :: 0 <= j < k.value ==> !IsApplicationPath(frames[j].file, basePath)
    ensures k.None? ==> forall j :: 0 <= j < |frames| ==> !IsApplicationPath(frames[j].file, basePath)
    decreases |frames|
  {
    if |frames| == 0 then None
    else if IsApplicationPath(frames[0].file, basePath) then Some(0)
    else match FirstApplicationFrame(frames[1..], basePath)
      case None => None
      case Some(k) => Some(k + 1)
  }

  /** The snippet generateCodeSnippet produces for a line of a file. */
  function SnippetFor(files: map<string, seq<string>>, path: string, line: int): map<int, string>
  {
    SnippetOf(Lookup(files, path), line, DefaultLineCount)
  }

  /**
   * What getTracersAndSnippet returns: the throw site when it is application
   * code (holding only file and line); otherwise the first application frame
   * of the trace with its file stripped and its other keys kept; otherwise
   * nothing. Each snippet is read from the unstripped path.
   */
  function SelectFrames(e: Fault, basePath: string, files: map<string, seq<string>>): (s: Selection)
    ensures |s.traces| == |s.snippets| <= 1
  {
    if IsApplicationPath(e.file, basePath) then
      Selection([Frame(StripBase(e.file, basePath), e.line, map[])], [SnippetFor(files, e.file, e.line)])
    else match FirstApplicationFrame(e.trace, basePath)
      case None => Selection([], [])
      case Some(k) =>
        var t := e.trace[k];
        Selection([t.(file := StripBase(t.file, basePath))], [SnippetFor(files, t.file, t.line)])
  }

  /** An application throw site is reported alone, and the trace is never looked at. */
  lemma ThrowSiteWins(e: Fault, basePath: string, files: map<string, seq<string>>, otherTrace: seq<Frame>)
    requires IsApplicationPath(e.file, basePath)
    ensures SelectFrames(e, basePath, files)
      == Selection([Frame(StripBase(e.file, basePath), e.line, map[])], [SnippetFor(files, e.file, e.line)])
    ensures SelectFrames(e.(trace := otherTrace), basePath, files) == SelectFrames(e, basePath, files)
  {
  }

  /**
   * A vendor throw site hands over to the first application frame of the
   * trace; what follows that frame is never looked at.
   */
  lemma {:induction false} FirstCallerWins(e: Fault, basePath: string, files: map<string, seq<string>>, k: nat, later: seq<Frame>)
    requires !IsApplicationPath(e.file, basePath)
    requires k < |e.trace| && IsApplicationPath(e.trace[k].file, basePath)
    requires forall j :: 0 <= j < k ==> !IsApplicationPath(e.trace[j].file, basePath)
    ensures SelectFrames(e, basePath, files)
      == Selection([e.trace[k].(file := StripBase(e.trace[k].file, basePath))], [SnippetFor(files, e.trace[k].file, e.trace[k].line)])
    ensures SelectFrames(e.(trace := e.trace[..k + 1] + later), basePath, files) == SelectFrames(e, basePath, files)
  {
    FirstFrameIsUnique(e.trace, basePath, k);
    var cut := e.trace[..k + 1] + later;
    assert cut[k] == e.trace[k];
    forall j | 0 <= j < k
      ensures !IsApplicationPath(cut[j].file, basePath)
    {
      assert cut[j] == e.trace[j];
    }
    FirstFrameIsUnique(cut, basePath, k);
  }

  /** The first application frame is determined by the frames up to it. */
  lemma FirstFrameIsUnique(frames: seq<Frame>, basePath: string, k: nat)
    requires k < |frames| && IsApplicationPath(frames[k].file, basePath)
    requires forall j :: 0 <= j < k ==> !IsApplicationPath(frames[j].file, basePath)
    ensures FirstApplicationFrame(frames, basePath) == Some(k)
  {
  }

  /** A fault raised and propagated entirely inside dependency code yields no trace and no snippet. */
  lemma AllVendorSelectsNothing(e: Fault, basePath: string, files: map<string, seq<string>>)
    requires !IsApplicationPath(e.file, basePath)
    requires forall j :: 0 <= j < |e.trace| ==> !IsApplicationPath(e.trace[j].file, basePath)
    ensures SelectFrames(e, basePath, files) == Selection([], [])
  {
  }

  /**
   * A reported trace is the throw site or a frame of the trace, with its
   * file stripped of the base path and its line passed through; its snippet
   * is taken around that line of the unstripped file.
   */
  lemma SelectedTraceIsStripped(e: Fault, basePath: string, files: map<string, seq<string>>)
    ensures var s := SelectFrames(e, basePath, files);
      |s.traces| == 1 ==>
        (s.traces[0] == Frame(StripBase(e.file, basePath), e.line, map[]) && s.snippets[0] == SnippetFor(files, e.file, e.line))
        || exists j :: 0 <= j < |e.trace|
             && s.traces[0] == e.trace[j].(file := StripBase(e.trace[j].file, basePath))
             && s.snippets[0] == SnippetFor(files, e.trace[j].file, e.trace[j].line)
  {
  }

  /**
   * A fault thrown at line 42 of an application file of at least 42 lines
   * is reported with that frame and a snippet that shows line 42.
   */
  lemma ApplicationFaultEndToEnd(lines: seq<string>)
    requires |lines| >= 42
    ensures var e := Fault("RuntimeException", "boom", 0, "app/Foo", 42, [Frame("app/Foo", 42, map[])]);
      var s := SelectFrames(e, "", map["app/Foo" := lines]);
      s.traces == [Frame("app/Foo", 42, map[])] && |s.snippets| == 1 && 42 in s.snippets[0]
      && s.snippets[0][42] == CleanLine(lines[41])
  {
  }

  class Handler {
    /** The project's base path, removed from reported file names. */
    const basePath: string
    /** The readable files of the host, by path. */
    const files: map<string, seq<string>>
    var stackTrace: Option<StackRecord>
    var request: Option<string>
    var user: Option<string>
    var app: Option<string>

    constructor (basePath: string, files: map<string, seq<string>>)
      ensures this.basePath == basePath && this.files == files
      ensures stackTrace == None && request == None && user == None && app == None
    {
      this.basePath := basePath;
      this.files := files;
      stackTrace, request, user, app := None, None, None, None;
    }

    /** generateCodeSnippet: a fresh extractor centred on `line`, run on `file`. */
    method GenerateCodeSnippet(line: int, file: string) returns (code: map<int, string>)
      ensures code == SnippetFor(files, file, line)
    {
      var extractor := new Codesnippet();
      extractor := extractor.SurroundingLine(line);
      code := extractor.Get(Lookup(files, file));
    }

    /**
     * getTracersAndSnippet: the throw site when it is application code;
     * otherwise the trace in order, stopping at the first application frame.
     */
    method GetTracersAndSnippet(e: Fault) returns (traces: seq<Frame>, snippets: seq<map<int, string>>)
      ensures Selection(traces, snippets) == SelectFrames(e, basePath, files)
    {
      traces, snippets := [], [];
      var filePath := StripBase(e.file, basePath);
      if !IsVendorPath(filePath) {
        var code := GenerateCodeSnippet(e.line, e.file);
        traces := traces + [Frame(StripBase(e.file, basePath), e.line, map[])];
        snippets := snippets + [code];
        return;
      }
      var i := 0;
      while i < |e.trace|
        invariant 0 <= i <= |e.trace|
        invariant forall j :: 0 <= j < i ==> !IsApplicationPath(e.trace[j].file, basePath)
        invariant traces == [] && snippets == []
      {
        var trace := e.trace[i];
        filePath := StripBase(trace.file, basePath);
        if !IsVendorPath(filePath) {
          var code := GenerateCodeSnippet(trace.line, trace.file);
          trace := trace.(file := StripBase(trace.file, basePath));
          traces := traces + [trace];
          snippets := snippets + [code];
          FirstFrameIsUnique(e.trace, basePath, i);
          break;
        }
        i := i + 1;
      }
    }

    /**
     * prepareStackTrace: records the throw site's class, message, code, file
     * and line (never the selected frame's), the time, the fixed severity and
     * the selected traces and snippets. The other fields are left alone.
     */
    method PrepareStackTrace(e: Fault, now: string)
      modifies this
      ensures stackTrace == Some(StackRecord(e.name, e.message, e.code, e.file, e.line, now, Severity,
        SelectFrames(e, basePath, files).traces, SelectFrames(e, basePath, files).snippets))
      ensures request == old(request) && user == old(user) && app == old(app)
    {
      var traces, snippets := GetTracersAndSnippet(e);
      stackTrace := Some(StackRecord(e.name, e.message, e.code, e.file, e.line, now, Severity, traces, snippets));
    }

    /**
     * sendException: nothing is sent and false is returned when the key or
     * the URL is unset; otherwise exactly one POST goes to the collector and
     * the result is whether the transport succeeded (`delivered`; any
     * exception it raises counts as failure).
     */
    method SendException(config: Config, delivered: bool) returns (sent: bool, posts: seq<Post>)
      ensures !(IsSet(config.lucentKey) && IsSet(config.lucentUrl)) ==> !sent && posts == []
      ensures IsSet(config.lucentKey) && IsSet(config.lucentUrl) ==>
        sent == delivered
        && posts == [Post(config.lucentUrl.value + RegisterPath, "Bearer " + config.lucentKey.value,
                          Payload(stackTrace, request, user, app))]
    {
      if !IsSet(config.lucentKey) || !IsSet(config.lucentUrl) {
        return false, [];
      }
      posts := [Post(config.lucentUrl.value + RegisterPath, "Bearer " + config.lucentKey.value,
                     Payload(stackTrace, request, user, app))];
      sent := delivered;
    }
  }
}
