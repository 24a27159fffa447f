/** `MainViewModel`: the form's options, the status line, the output log, the result
    text, the busy flag and the advanced-mode switch, and the commands and event
    handlers that change them.

    Each command is a method of the class `MainViewModel`, proved to leave the state
    that a pure transition function over `ViewState` describes; the properties of the
    view model are lemmas about those functions. File contents are read from a
    `FileSystem` snapshot; pickers, the clipboard and file writes are represented by
    the outcome they deliver. */
module ViewModels {
  import opened Wrappers
  import opened Platform
  import opened ArgumentBuilder
  import opened Models

  /** A window size, width by height. */
  datatype Size = Size(width: int, height: int)

  const AdvancedSize: Size := Size(1200, 800)
  const CompactSize: Size := Size(550, 420)

  function SizeFor(advanced: bool): Size {
    if advanced then AdvancedSize else CompactSize
  }

  /** The observable state. `window` is the size of the main window, `None` while no
      window is attached. */
  datatype ViewState = ViewState(
    options: Options,
    status: string,
    output: string,
    resultContent: string,
    isProcessing: bool,
    isAdvancedMode: bool,
    window: Option<Size>)

  const InitialState: ViewState := ViewState(DefaultOptions, "Ready", "", "", false, false, None)

  /** What the clipboard command meets: no clipboard, a successful copy, or an
      exception with its message. */
  datatype CopyOutcome = NoClipboard | Copied | CopyFailed(message: string)

  /** What writing the result file meets: success, or an exception with its message. */
  datatype WriteOutcome = Written | WriteFailed(message: string)

  // ---------------------------------------------------------------------------
  // Event handlers

  function ReadErrorLine(message: string): string {
    "Error reading output file: " + message + NewLine
  }

  /** `OnOutputReceived`: logs the line, then reloads the result from the output file
      when it exists (logging the read error when it cannot be read). */
  function OutputReceived(s: ViewState, data: string, files: FileSystem): (r: ViewState)
    ensures r.status == s.status && r.isProcessing == s.isProcessing && r.options == s.options
    ensures |r.output| >= |s.output| + |data| + |NewLine| && r.output[..|s.output|] == s.output
    ensures var name := s.options.outputFileName;
      var failed := name in files && files[name].ReadFailure?;
      r.output == s.output + data + NewLine + (if failed then ReadErrorLine(files[name].message) else "")
    ensures var name := s.options.outputFileName;
      r.resultContent == (if name in files && files[name].Contents? then files[name].text else s.resultContent)
  {
    var logged := s.(output := s.output + data + NewLine);
    var name := s.options.outputFileName;
    if name !in files then logged
    else
      match files[name]
      case Contents(text) => logged.(resultContent := text)
      case ReadFailure(message) => logged.(output := logged.output + ReadErrorLine(message))
  }

  function ErrorLine(data: string): string {
    "ERROR: " + data + NewLine
  }

  /** `OnErrorReceived`: logs the line with an `ERROR: ` prefix. */
  function ErrorReceived(s: ViewState, data: string): ViewState {
    s.(output := s.output + ErrorLine(data))
  }

  /** `OnProcessExited`: no longer busy; "Completed" or "Failed" by the exit code; on
      success the result is read once more from the output file. */
  function ProcessExited(s: ViewState, code: int, files: FileSystem): ViewState {
    var done := s.(isProcessing := false, status := if code == 0 then "Completed" else "Failed");
    var name := s.options.outputFileName;
    if code == 0 && name in files then
      match files[name]
      case Contents(text) => done.(resultContent := text, status := "Completed - Result ready")
      case ReadFailure(message) => done.(output := done.output + ReadErrorLine(message))
    else done
  }

  function Handle(s: ViewState, e: Event, files: FileSystem): ViewState {
    match e
    case Output(line) => OutputReceived(s, line, files)
    case Error(line) => ErrorReceived(s, line)
    case Exited(code) => ProcessExited(s, code, files)
  }

  /** The handlers run on the events in the order they were raised. */
  function Dispatch(s: ViewState, events: seq<Event>, files: FileSystem): ViewState {
    if events == [] then s
    else Handle(Dispatch(s, events[..|events| - 1], files), events[|events| - 1], files)
  }

  // ---------------------------------------------------------------------------
  // Commands

  /** The start of `Generate`: log and result cleared, busy, status "Generating prompt...". */
  function Started(s: ViewState): ViewState {
    s.(output := "", resultContent := "", isProcessing := true, status := "Generating prompt...")
  }

  /** `Generate`: ignored while busy; otherwise starts, runs the tool and handles its
      events, or, when an exception escapes (`fault`), shows it and stops. */
  function Generated(s: ViewState, toolPath: string, fs: FileSystem, launch: Launch, files: FileSystem,
                     fault: Option<string>): (r: ViewState)
    ensures s.isProcessing ==> r == s
  {
    if s.isProcessing then s
    else
      match fault
      case Some(message) => Started(s).(output := "Error: " + message, status := "Error", isProcessing := false)
      case None => Dispatch(Started(s), RunEvents(toolPath, fs, launch), files)
  }

  /** `ToggleAdvanced`: flips the mode and, with a window attached, gives it the size
      of the new mode. */
  function Toggled(s: ViewState): (r: ViewState)
    ensures r.isAdvancedMode == !s.isAdvancedMode
    ensures r.window.Some? <==> s.window.Some?
    ensures r.window.Some? ==> r.window.value == SizeFor(r.isAdvancedMode)
    ensures r == s.(isAdvancedMode := r.isAdvancedMode, window := r.window)
  {
    var advanced := !s.isAdvancedMode;
    s.(isAdvancedMode := advanced, window := if s.window.Some? then Some(SizeFor(advanced)) else None)
  }

  /** `CopyResult`: nothing to do without a result; otherwise only the status changes.
      Without a window there is no clipboard, whatever `outcome` says. */
  function CopiedResult(s: ViewState, outcome: CopyOutcome): (r: ViewState)
    ensures r == s.(status := r.status)
    ensures s.resultContent == "" ==> r == s
    ensures s.resultContent != "" && s.window.None? ==> r.status == "Clipboard not available"
    ensures r.status == "Result copied to clipboard" && r != s ==> s.window.Some? && outcome.Copied?
  {
    if s.resultContent == "" then s
    else if s.window.None? then s.(status := "Clipboard not available")
    else
      match outcome
      case NoClipboard => s.(status := "Clipboard not available")
      case Copied => s.(status := "Result copied to clipboard")
      case CopyFailed(message) =>
        assert ("Copy failed: " + message)[0] == 'C';
        s.(status := "Copy failed: " + message)
  }

  /** `SaveResult`: nothing to do without a result or when the picker is cancelled;
      otherwise only the status changes. */
  function SavedResult(s: ViewState, picked: Option<string>, outcome: WriteOutcome): (r: ViewState)
    ensures r == s.(status := r.status)
    ensures s.resultContent == "" || picked.None? ==> r == s
  {
    if s.resultContent == "" || picked.None? then s
    else
      match outcome
      case Written => s.(status := "Result saved to " + GetFileName(picked.value))
      case WriteFailed(message) => s.(status := "Save failed: " + message)
  }

  /** The file system after `SaveResult`: the result written to the picked file when
      the write succeeds, untouched otherwise. */
  function SavedFiles(s: ViewState, picked: Option<string>, outcome: WriteOutcome, fs: FileSystem): (r: FileSystem)
    ensures r == fs || (s.resultContent != "" && picked.Some? && outcome.Written?
                        && r == fs[picked.value := Contents(s.resultContent)])
  {
    if s.resultContent == "" || picked.None? || outcome.WriteFailed? then fs
    else fs[picked.value := Contents(s.resultContent)]
  }

  // ---------------------------------------------------------------------------
  // The view model object

  class MainViewModel {
    var options: Options
    var status: string
    var output: string
    var resultContent: string
    var isProcessing: bool
    var isAdvancedMode: bool
    var window: Option<Size>
    /** `_processRunner`, created with the view model and never replaced. */
    const runner: ProcessRunner

    function State(): ViewState
      reads this
    {
      ViewState(options, status, output, resultContent, isProcessing, isAdvancedMode, window)
    }

    /** The view model with its initial field values and its runner, which locates the
        tool in `fs`. */
    constructor(fs: FileSystem, baseDirectory: string, currentDirectory: string)
      ensures State() == InitialState
      ensures fresh(runner) && runner.trace == [] && runner.launched == []
      ensures runner.toolPath == ToolPath(fs, baseDirectory, currentDirectory)
    {
      options := DefaultOptions;
      status := "Ready";
      output := "";
      resultContent := "";
      isProcessing := false;
      isAdvancedMode := false;
      window := None;
      runner := new ProcessRunner(fs, baseDirectory, currentDirectory);
    }

    /** `SetMainWindow`: attaches a window of the given size. */
    method SetMainWindow(size: Size)
      modifies this
      ensures State() == old(State()).(window := Some(size))
    {
      window := Some(size);
    }

    method ToggleAdvanced()
      modifies this
      ensures State() == Toggled(old(State()))
    {
      isAdvancedMode := !isAdvancedMode;
      if window.Some? {
        if isAdvancedMode {
          window := Some(AdvancedSize);
        } else {
          window := Some(CompactSize);
        }
      }
    }

    /** `Generate`. `fs` is the file system the runner checks for the tool, `launch` what
        the tool does with the arguments, `files` what the handlers read, and `fault` an
        exception escaping the run before any event. */
    method Generate(fs: FileSystem, launch: Launch, files: FileSystem, fault: Option<string>)
      modifies this, runner
      ensures State() == Generated(old(State()), runner.toolPath, fs, launch, files, fault)
      ensures runner.trace == old(runner.trace)
        + (if old(isProcessing) || fault.Some? then [] else RunEvents(runner.toolPath, fs, launch))
      ensures runner.launched == old(runner.launched)
        + (if old(isProcessing) || fault.Some? || runner.toolPath !in fs then [] else [Arguments(old(options))])
    {
      if isProcessing {
        return;
      }
      output := "";
      resultContent := "";
      isProcessing := true;
      status := "Generating prompt...";
      if fault.Some? {
        output := "Error: " + fault.value;
        status := "Error";
        isProcessing := false;
        return;
      }
      RunTool(fs, launch, files);
    }

    /** The body of the `try` in `Generate`: builds the arguments, runs the tool and
        lets the handlers take the events it raises. */
    method RunTool(fs: FileSystem, launch: Launch, files: FileSystem)
      modifies this, runner
      ensures State() == Dispatch(old(State()), RunEvents(runner.toolPath, fs, launch), files)
      ensures runner.trace == old(runner.trace) + RunEvents(runner.toolPath, fs, launch)
      ensures runner.launched == old(runner.launched) + (if runner.toolPath in fs then [Arguments(old(options))] else [])
    {
      var arguments := BuildArguments(options);
      var before := runner.trace;
      runner.RunProcess(arguments, fs, launch);
      var events := runner.trace[|before|..];
      assert events == RunEvents(runner.toolPath, fs, launch);
      HandleEvents(events, files);
    }

    /** The subscribed handlers taking the events the runner raises, one at a time. */
    method HandleEvents(events: seq<Event>, files: FileSystem)
      modifies this
      ensures State() == Dispatch(old(State()), events, files)
    {
      var i := 0;
      while i < |events|
        invariant 0 <= i <= |events|
        invariant State() == Dispatch(old(State()), events[..i], files)
      {
        DispatchStep(old(State()), events, i, files);
        OnEvent(events[i], files);
        i := i + 1;
      }
      assert events[..i] == events;
    }

    /** Delivers one event to its handler. */
    method OnEvent(e: Event, files: FileSystem)
      modifies this
      ensures State() == Handle(old(State()), e, files)
    {
      match e
      case Output(line) => OnOutputReceived(line, files);
      case Error(line) => OnErrorReceived(line);
      case Exited(code) => OnProcessExited(code, files);
    }

    method OnOutputReceived(data: string, files: FileSystem)
      modifies this
      ensures State() == OutputReceived(old(State()), data, files)
    {
      output := output + data + NewLine;
      if options.outputFileName in files {
        match files[options.outputFileName]
        case Contents(text) =>
          resultContent := text;
        case ReadFailure(message) =>
          output := output + ReadErrorLine(message);
      }
    }

    method OnErrorReceived(data: string)
      modifies this
      ensures State() == ErrorReceived(old(State()), data)
    {
      output := output + ErrorLine(data);
    }

    method OnProcessExited(code: int, files: FileSystem)
      modifies this
      ensures State() == ProcessExited(old(State()), code, files)
    {
      isProcessing := false;
      status := if code == 0 then "Completed" else "Failed";
      if code == 0 && options.outputFileName in files {
        match files[options.outputFileName]
        case Contents(text) =>
          resultContent := text;
          status := "Completed - Result ready";
        case ReadFailure(message) =>
          output := output + ReadErrorLine(message);
      }
    }

    /** `BrowsePath`: takes the picked folder; a cancelled picker changes nothing. */
    method BrowsePath(picked: Option<string>)
      modifies this
      ensures State() == old(State()).(options := if picked.Some? then old(options).(path := picked.value) else old(options))
    {
      if picked.Some? {
        options := options.(path := picked.value);
      }
    }

    /** `BrowseOutput`: takes the picked output file; a cancelled picker changes nothing. */
    method BrowseOutput(picked: Option<string>)
      modifies this
      ensures State() == old(State()).(options := if picked.Some? then old(options).(outputFileName := picked.value) else old(options))
    {
      if picked.Some? {
        options := options.(outputFileName := picked.value);
      }
    }

    /** `BrowseTemplate`: takes the picked template; a cancelled picker changes nothing. */
    method BrowseTemplate(picked: Option<string>)
      modifies this
      ensures State() == old(State()).(options := if picked.Some? then old(options).(template := picked.value) else old(options))
    {
      if picked.Some? {
        options := options.(template := picked.value);
      }
    }

    method CopyResult(outcome: CopyOutcome)
      modifies this
      ensures State() == CopiedResult(old(State()), outcome)
    {
      if resultContent == "" {
        return;
      }
      if window.None? {
        status := "Clipboard not available";
        return;
      }
      match outcome
      case NoClipboard =>
        status := "Clipboard not available";
      case Copied =>
        status := "Result copied to clipboard";
      case CopyFailed(message) =>
        status := "Copy failed: " + message;
    }

    /** `SaveResult`: `picked` is the save picker's answer, `outcome` what the write
        meets; returns the file system after the write. */
    method SaveResult(picked: Option<string>, outcome: WriteOutcome, fs: FileSystem) returns (fs': FileSystem)
      modifies this
      ensures State() == SavedResult(old(State()), picked, outcome)
      ensures fs' == SavedFiles(old(State()), picked, outcome, fs)
    {
      ghost var before := State();
      if resultContent == "" || picked.None? {
        return fs;
      }
      var file := picked.value;
      match outcome
      case Written =>
        fs' := fs[file := Contents(resultContent)];
        var name := GetFileName(file);
        status := "Result saved to " + name;
        assert State() == before.(status := status);
      case WriteFailed(message) =>
        fs' := fs;
        status := "Save failed: " + message;
        assert State() == before.(status := status);
    }
  }

  // ---------------------------------------------------------------------------
  // Properties

  /** The text of the output file, when it exists and can be read. */
  function ResultFile(files: FileSystem, name: string): Option<string> {
    if name in files && files[name].Contents? then Some(files[name].text) else None
  }

  /** The handlers only ever append to the log, and never touch the options, the mode
      or the window. */
  lemma HandleKeeps(s: ViewState, e: Event, files: FileSystem)
    ensures var r := Handle(s, e, files);
      && |s.output| <= |r.output| && r.output[..|s.output|] == s.output
      && r.options == s.options && r.isAdvancedMode == s.isAdvancedMode && r.window == s.window
  {
    var r := Handle(s, e, files);
    if e.Exited? && r.output != s.output {
      assert r.output == s.output + ReadErrorLine(files[s.options.outputFileName].message);
    }
  }

  /** Handling events one run after another is handling them all. */
  lemma {:induction false} DispatchAppend(s: ViewState, xs: seq<Event>, ys: seq<Event>, files: FileSystem)
    ensures Dispatch(s, xs + ys, files) == Dispatch(Dispatch(s, xs, files), ys, files)
    decreases |ys|
  {
    if ys == [] {
      assert xs + ys == xs;
    } else {
      var init := ys[..|ys| - 1];
      assert (xs + ys)[..|xs + ys| - 1] == xs + init;
      assert (xs + ys)[|xs + ys| - 1] == ys[|ys| - 1];
      DispatchAppend(s, xs, init, files);
    }
  }

  /** Over any events, the log only grows from its start, and the options, the mode
      and the window stay as they were. */
  lemma {:induction false} DispatchKeeps(s: ViewState, events: seq<Event>, files: FileSystem)
    ensures var r := Dispatch(s, events, files);
      && |s.output| <= |r.output| && r.output[..|s.output|] == s.output
      && r.options == s.options && r.isAdvancedMode == s.isAdvancedMode && r.window == s.window
    decreases |events|
  {
    if events != [] {
      var init := events[..|events| - 1];
      var mid := Dispatch(s, init, files);
      DispatchKeeps(s, init, files);
      HandleKeeps(mid, events[|events| - 1], files);
      var r := Dispatch(s, events, files);
      assert r.output[..|mid.output|] == mid.output;
      assert r.output[..|s.output|] == r.output[..|mid.output|][..|s.output|];
    }
  }

  /** Lines of output and error leave the status and the busy flag alone; the result is
      the output file's text once some output line has arrived while the file is
      readable, and otherwise stays as it was. */
  lemma {:induction false} DispatchLines(s: ViewState, events: seq<Event>, files: FileSystem)
    requires forall k | 0 <= k < |events| :: !events[k].Exited?
    ensures var r := Dispatch(s, events, files);
      && r.status == s.status && r.isProcessing == s.isProcessing
      && r.resultContent == (var text := ResultFile(files, s.options.outputFileName);
                             if OutputLines(events) != [] && text.Some? then text.value else s.resultContent)
    decreases |events|
  {
    if events != [] {
      var init := events[..|events| - 1];
      DispatchLines(s, init, files);
      DispatchKeeps(s, init, files);
    }
  }

  /** Handling one more event of a run is handling it after the ones before. */
  lemma DispatchStep(s: ViewState, events: seq<Event>, i: nat, files: FileSystem)
    requires i < |events|
    ensures Dispatch(s, events[..i + 1], files) == Handle(Dispatch(s, events[..i], files), events[i], files)
  {
    assert events[..i + 1][..i] == events[..i];
  }

  /** Handling a run that ends in an exit is handling its lines, then the exit. */
  lemma ExitStep(s: ViewState, events: seq<Event>, code: int, files: FileSystem)
    ensures Dispatch(s, events + [Exited(code)], files) == ProcessExited(Dispatch(s, events, files), code, files)
  {
    assert (events + [Exited(code)])[..|events|] == events;
  }

  /** A run of the tool that starts: the lines leave status and flag alone, then the
      exit decides them; the result is the file's text when the file is readable and
      the tool succeeded or printed a line of output. */
  lemma RanOutcome(s: ViewState, toolPath: string, fs: FileSystem, lines: seq<StreamLine>, code: int, files: FileSystem)
    requires !s.isProcessing && toolPath in fs
    ensures var r := Generated(s, toolPath, fs, Ran(lines, code), files, None);
      var text := ResultFile(files, s.options.outputFileName);
      && !r.isProcessing
      && r.options == s.options && r.isAdvancedMode == s.isAdvancedMode && r.window == s.window
      && r.status == (if code == 0 then (if text.Some? then "Completed - Result ready" else "Completed") else "Failed")
      && r.resultContent == (if text.Some? && (code == 0 || StdOutText(lines) != []) then text.value else "")
  {
    var started := Started(s);
    var relayed := Relayed(lines);
    RelayedLines(lines);
    RelayedOutput(lines);
    assert forall k | 0 <= k < |relayed| :: relayed[k] in relayed;
    DispatchLines(started, relayed, files);
    DispatchKeeps(started, relayed, files);
    ExitStep(started, relayed, code, files);
  }

  /** The outcome of one `Generate` from an idle view model: never left busy; "Error"
      when an exception escapes; otherwise "Completed - Result ready" when the tool ran,
      exited with 0 and the output file can be read, "Completed" when it exited with 0
      and the file cannot be read, and "Failed" in every other case (tool missing,
      start failed, non-zero exit). The result holds the file's text exactly when the
      file is readable and the tool ran and either succeeded or printed a line of
      output. */
  lemma GenerateOutcome(s: ViewState, toolPath: string, fs: FileSystem, launch: Launch, files: FileSystem,
                        fault: Option<string>)
    requires !s.isProcessing
    ensures var r := Generated(s, toolPath, fs, launch, files, fault);
      var text := ResultFile(files, s.options.outputFileName);
      var ran := fault.None? && toolPath in fs && launch.Ran?;
      && !r.isProcessing
      && r.options == s.options && r.isAdvancedMode == s.isAdvancedMode && r.window == s.window
      && r.status == (if fault.Some? then "Error"
                      else if ran && launch.exitCode == 0 then (if text.Some? then "Completed - Result ready" else "Completed")
                      else "Failed")
      && r.resultContent == (if ran && text.Some? && (launch.exitCode == 0 || StdOutText(launch.lines) != [])
                             then text.value else "")
      && (fault.Some? ==> r.output == "Error: " + fault.value)
  {
    if fault.None? {
      if toolPath !in fs {
        ToolMissingOutcome(s, toolPath, fs, launch, files);
      } else if launch.Failed? {
        LaunchFailureOutcome(s, toolPath, fs, launch.message, files);
      } else {
        RanOutcome(s, toolPath, fs, launch.lines, launch.exitCode, files);
      }
    }
  }

  /** When the tool is missing, `Generate` ends with one error line in the log, no
      result and status "Failed". */
  lemma ToolMissingOutcome(s: ViewState, toolPath: string, fs: FileSystem, launch: Launch, files: FileSystem)
    requires !s.isProcessing && toolPath !in fs
    ensures Generated(s, toolPath, fs, launch, files, None)
      == s.(output := ErrorLine("Tool not found: " + toolPath), resultContent := "",
            isProcessing := false, status := "Failed")
  {
    FailedRun(s, toolPath, fs, launch, files, "Tool not found: " + toolPath);
  }

  /** When the tool cannot be started, `Generate` ends with the exception's message in
      the log, no result and status "Failed". */
  lemma LaunchFailureOutcome(s: ViewState, toolPath: string, fs: FileSystem, message: string, files: FileSystem)
    requires !s.isProcessing && toolPath in fs
    ensures Generated(s, toolPath, fs, Failed(message), files, None)
      == s.(output := ErrorLine("Process error: " + message), resultContent := "",
            isProcessing := false, status := "Failed")
  {
    FailedRun(s, toolPath, fs, Failed(message), files, "Process error: " + message);
  }

  /** A run that raises an error line then exit code 1. */
  lemma FailedRun(s: ViewState, toolPath: string, fs: FileSystem, launch: Launch, files: FileSystem, line: string)
    requires !s.isProcessing && RunEvents(toolPath, fs, launch) == [Error(line), Exited(1)]
    ensures Generated(s, toolPath, fs, launch, files, None)
      == s.(output := ErrorLine(line), resultContent := "", isProcessing := false, status := "Failed")
  {
    var started := Started(s);
    assert [Error(line)][..0] == [];
    assert Dispatch(started, [Error(line)], files) == ErrorReceived(started, line);
    ExitStep(started, [Error(line)], 1, files);
    assert [Error(line)] + [Exited(1)] == RunEvents(toolPath, fs, launch);
    assert "" + ErrorLine(line) == ErrorLine(line);
  }

  /** A run's log starts with every line of the tool's output, in order, each followed
      by a line break; reading the output file adds nothing to it when the file is
      readable. */
  lemma GenerateLog(s: ViewState, toolPath: string, fs: FileSystem, lines: seq<StreamLine>, code: int, files: FileSystem)
    requires !s.isProcessing && toolPath in fs
    requires ResultFile(files, s.options.outputFileName).Some? || s.options.outputFileName !in files
    requires forall k | 0 <= k < |lines| :: lines[k].StdOut?
    ensures Generated(s, toolPath, fs, Ran(lines, code), files, None).output == Log(StdOutText(lines))
  {
    var started := Started(s);
    var relayed := Relayed(lines);
    RelayedOutput(lines);
    OnlyOutput(lines);
    DispatchLog(started, relayed, files);
    ExitStep(started, relayed, code, files);
  }

  /** The lines, each followed by a line break. */
  function Log(lines: seq<string>): string {
    if lines == [] then "" else Log(lines[..|lines| - 1]) + lines[|lines| - 1] + NewLine
  }

  /** Relaying standard output only raises output events. */
  lemma {:induction false} OnlyOutput(lines: seq<StreamLine>)
    requires forall k | 0 <= k < |lines| :: lines[k].StdOut?
    ensures forall k | 0 <= k < |Relayed(lines)| :: Relayed(lines)[k].Output?
    decreases |lines|
  {
    if lines != [] {
      var init := lines[..|lines| - 1];
      OnlyOutput(init);
      assert forall k | 0 <= k < |Relayed(init)| :: Relayed(lines)[k] == Relayed(init)[k];
    }
  }

  /** Output events each append their line and a line break when the output file is
      readable or absent. */
  lemma {:induction false} DispatchLog(s: ViewState, events: seq<Event>, files: FileSystem)
    requires ResultFile(files, s.options.outputFileName).Some? || s.options.outputFileName !in files
    requires forall k | 0 <= k < |events| :: events[k].Output?
    ensures Dispatch(s, events, files).output == s.output + Log(OutputLines(events))
    ensures Dispatch(s, events, files).options == s.options
    decreases |events|
  {
    if events != [] {
      var init, e := events[..|events| - 1], events[|events| - 1];
      DispatchLog(s, init, files);
      var mid := Dispatch(s, init, files);
      OutputStep(mid, e.line, files);
      LogSnoc(OutputLines(init), e.line);
      assert s.output + Log(OutputLines(init)) + e.line + NewLine == s.output + (Log(OutputLines(init)) + e.line + NewLine);
    }
  }

  /** With the output file readable or absent, a line of output only extends the log. */
  lemma OutputStep(s: ViewState, line: string, files: FileSystem)
    requires ResultFile(files, s.options.outputFileName).Some? || s.options.outputFileName !in files
    ensures OutputReceived(s, line, files).output == s.output + line + NewLine
    ensures OutputReceived(s, line, files).options == s.options
  {
  }

  lemma LogSnoc(lines: seq<string>, line: string)
    ensures Log(lines + [line]) == Log(lines) + line + NewLine
  {
    assert (lines + [line])[..|lines|] == lines;
  }

  /** Toggling twice gives back the mode, and the window too when its size matched
      the mode. */
  lemma ToggleTwice(s: ViewState)
    ensures Toggled(Toggled(s)).isAdvancedMode == s.isAdvancedMode
    ensures s.window.None? || s.window == Some(SizeFor(s.isAdvancedMode)) ==> Toggled(Toggled(s)) == s
  {
  }
}
