/** `ProcessRunner`: finds the bundled `code2prompt.exe`, runs it with an argument string
    and reports what happens through three events (a line of output, a line of error
    output, the exit code).

    The tool itself is outside the model: what a run produces is a `Launch` value
    handed in by the caller, and the events the runner raises are appended, in order,
    to the runner's `trace`. */
module Models {
  import opened Wrappers
  import opened Platform

  const ToolFileName: string := "code2prompt.exe"
  const ToolsFolder: string := "Tools"

  /** What the runner raises: `OutputReceived`, `ErrorReceived`, `ProcessExited`. */
  datatype Event = Output(line: string) | Error(line: string) | Exited(code: int)

  /** One notification from a redirected stream; `None` is the null that marks the
      end of the stream. */
  datatype StreamLine = StdOut(data: Option<string>) | StdErr(data: Option<string>)

  /** How a launch of the tool ends: it runs, its two streams deliver these lines
      (interleaved as they arrive) and it exits with a code; or starting it throws. */
  datatype Launch = Ran(lines: seq<StreamLine>, exitCode: int) | Failed(message: string)

  // ---------------------------------------------------------------------------
  // Locating the tool

  /** The four places searched, in order: `Tools` under the application directory,
      the application directory, `Tools` under the current directory, the current
      directory. */
  function Candidates(baseDirectory: string, currentDirectory: string): (r: seq<string>)
    ensures |r| == 4
  {
    [ Combine(Combine(baseDirectory, ToolsFolder), ToolFileName),
      Combine(baseDirectory, ToolFileName),
      Combine(Combine(currentDirectory, ToolsFolder), ToolFileName),
      Combine(currentDirectory, ToolFileName) ]
  }

  /** The index of the first candidate that exists, or `|candidates|` when none does. */
  function FirstExisting(candidates: seq<string>, fs: FileSystem): (i: nat)
    ensures i <= |candidates|
    ensures forall j | 0 <= j < i :: candidates[j] !in fs
    ensures i < |candidates| ==> candidates[i] in fs
  {
    if candidates == [] then 0
    else if candidates[0] in fs then 0
    else 1 + FirstExisting(candidates[1..], fs)
  }

  /** The tool path the runner settles on: the first candidate that exists, or the
      first candidate when none does (the run then reports the tool missing). */
  function ToolPath(fs: FileSystem, baseDirectory: string, currentDirectory: string): string {
    var candidates := Candidates(baseDirectory, currentDirectory);
    var i := FirstExisting(candidates, fs);
    if i < |candidates| then candidates[i] else candidates[0]
  }

  /** The path is one of the candidates: the first that exists, or the first of all
      when none exists. */
  lemma ToolPathChoice(fs: FileSystem, baseDirectory: string, currentDirectory: string)
    ensures var candidates, path := Candidates(baseDirectory, currentDirectory), ToolPath(fs, baseDirectory, currentDirectory);
      && (path in fs <==> exists j | 0 <= j < 4 :: candidates[j] in fs)
      && (path !in fs ==> path == candidates[0])
      && (path in fs ==> exists i | 0 <= i < 4 :: path == candidates[i] && forall k | 0 <= k < i :: candidates[k] !in fs)
  {
    var candidates := Candidates(baseDirectory, currentDirectory);
    var i := FirstExisting(candidates, fs);
    if i < 4 {
      assert candidates[i] in fs;
    }
  }

  /** `GetEmbeddedToolPath`: the `foreach` over the candidates. */
  method GetEmbeddedToolPath(fs: FileSystem, baseDirectory: string, currentDirectory: string) returns (path: string)
    ensures path == ToolPath(fs, baseDirectory, currentDirectory)
  {
    var candidates := Candidates(baseDirectory, currentDirectory);
    var i := 0;
    while i < |candidates|
      invariant 0 <= i <= |candidates|
      invariant forall j | 0 <= j < i :: candidates[j] !in fs
    {
      if candidates[i] in fs {
        FirstExistingIs(candidates, fs, i);
        return candidates[i];
      }
      i := i + 1;
    }
    FirstExistingIs(candidates, fs, i);
    return candidates[0];
  }

  /** The first existing candidate is the one a scan from the front stops at. */
  lemma {:induction false} FirstExistingIs(candidates: seq<string>, fs: FileSystem, i: nat)
    requires i <= |candidates|
    requires forall j | 0 <= j < i :: candidates[j] !in fs
    requires i < |candidates| ==> candidates[i] in fs
    ensures FirstExisting(candidates, fs) == i
    decreases i
  {
    if i > 0 {
      FirstExistingIs(candidates[1..], fs, i - 1);
    }
  }

  // ---------------------------------------------------------------------------
  // Events of one run

  /** The events the two stream handlers raise for one notification: none for a null
      or empty line, otherwise the line on its own stream. */
  function Relay(l: StreamLine): seq<Event> {
    match l
    case StdOut(Some(d)) => if d != "" then [Output(d)] else []
    case StdErr(Some(d)) => if d != "" then [Error(d)] else []
    case _ => []
  }

  function Relayed(lines: seq<StreamLine>): seq<Event> {
    if lines == [] then [] else Relayed(lines[..|lines| - 1]) + Relay(lines[|lines| - 1])
  }

  /** Everything one `RunProcessAsync` raises. */
  function RunEvents(toolPath: string, fs: FileSystem, launch: Launch): seq<Event> {
    if toolPath !in fs then [Error("Tool not found: " + toolPath), Exited(1)]
    else
      match launch
      case Failed(message) => [Error("Process error: " + message), Exited(1)]
      case Ran(lines, exitCode) => Relayed(lines) + [Exited(exitCode)]
  }

  // ---------------------------------------------------------------------------
  // Reference views of the streams

  /** The lines of a stream that carry text, in order. */
  function StdOutText(lines: seq<StreamLine>): seq<string> {
    if lines == [] then []
    else
      var l := lines[|lines| - 1];
      StdOutText(lines[..|lines| - 1]) + (if l.StdOut? && l.data.Some? && l.data.value != "" then [l.data.value] else [])
  }

  function StdErrText(lines: seq<StreamLine>): seq<string> {
    if lines == [] then []
    else
      var l := lines[|lines| - 1];
      StdErrText(lines[..|lines| - 1]) + (if l.StdErr? && l.data.Some? && l.data.value != "" then [l.data.value] else [])
  }

  /** The lines of the output events, in order. */
  function OutputLines(events: seq<Event>): seq<string> {
    if events == [] then []
    else
      var e := events[|events| - 1];
      OutputLines(events[..|events| - 1]) + (if e.Output? then [e.line] else [])
  }

  /** The lines of the error events, in order. */
  function ErrorLines(events: seq<Event>): seq<string> {
    if events == [] then []
    else
      var e := events[|events| - 1];
      ErrorLines(events[..|events| - 1]) + (if e.Error? then [e.line] else [])
  }

  /** Standard output is relayed as output events, every text line once and in order,
      null and empty lines dropped. */
  lemma {:induction false} RelayedOutput(lines: seq<StreamLine>)
    ensures OutputLines(Relayed(lines)) == StdOutText(lines)
    decreases |lines|
  {
    if lines != [] {
      var init, l := lines[..|lines| - 1], lines[|lines| - 1];
      RelayedOutput(init);
      var r := Relay(l);
      OutputLinesAppend(Relayed(init), r);
      RelayOutputLines(l);
    }
  }

  lemma RelayOutputLines(l: StreamLine)
    ensures OutputLines(Relay(l)) == if l.StdOut? && l.data.Some? && l.data.value != "" then [l.data.value] else []
  {
    var r := Relay(l);
    if r != [] {
      assert r[..0] == [];
    }
  }

  /** Standard error is relayed as error events, every text line once and in order,
      null and empty lines dropped. */
  lemma {:induction false} RelayedErrors(lines: seq<StreamLine>)
    ensures ErrorLines(Relayed(lines)) == StdErrText(lines)
    decreases |lines|
  {
    if lines != [] {
      var init, l := lines[..|lines| - 1], lines[|lines| - 1];
      RelayedErrors(init);
      var r := Relay(l);
      ErrorLinesAppend(Relayed(init), r);
      RelayErrorLines(l);
    }
  }

  lemma RelayErrorLines(l: StreamLine)
    ensures ErrorLines(Relay(l)) == if l.StdErr? && l.data.Some? && l.data.value != "" then [l.data.value] else []
  {
    var r := Relay(l);
    if r != [] {
      assert r[..0] == [];
    }
  }

  /** Relaying never raises an exit, and no relayed line is empty. */
  lemma {:induction false} RelayedLines(lines: seq<StreamLine>)
    ensures forall e | e in Relayed(lines) :: !e.Exited? && e.line != ""
    decreases |lines|
  {
    if lines != [] {
      RelayedLines(lines[..|lines| - 1]);
    }
  }

  lemma {:induction false} OutputLinesAppend(xs: seq<Event>, ys: seq<Event>)
    ensures OutputLines(xs + ys) == OutputLines(xs) + OutputLines(ys)
    decreases |ys|
  {
    if ys == [] {
      assert xs + ys == xs;
    } else {
      var init := ys[..|ys| - 1];
      assert (xs + ys)[..|xs + ys| - 1] == xs + init;
      assert (xs + ys)[|xs + ys| - 1] == ys[|ys| - 1];
      OutputLinesAppend(xs, init);
    }
  }

  lemma {:induction false} ErrorLinesAppend(xs: seq<Event>, ys: seq<Event>)
    ensures ErrorLines(xs + ys) == ErrorLines(xs) + ErrorLines(ys)
    decreases |ys|
  {
    if ys == [] {
      assert xs + ys == xs;
    } else {
      var init := ys[..|ys| - 1];
      assert (xs + ys)[..|xs + ys| - 1] == xs + init;
      assert (xs + ys)[|xs + ys| - 1] == ys[|ys| - 1];
      ErrorLinesAppend(xs, init);
    }
  }

  /** Every run ends with exactly one exit event, and only there: code 1 when the tool
      is missing or cannot be started, the tool's own code otherwise. */
  lemma RunEndsWithExit(toolPath: string, fs: FileSystem, launch: Launch)
    ensures var events := RunEvents(toolPath, fs, launch);
      && |events| >= 1
      && events[|events| - 1] == Exited(if toolPath in fs && launch.Ran? then launch.exitCode else 1)
      && forall k | 0 <= k < |events| - 1 :: !events[k].Exited?
  {
    if toolPath in fs && launch.Ran? {
      var relayed := Relayed(launch.lines);
      RelayedLines(launch.lines);
      forall k | 0 <= k < |relayed| ensures !relayed[k].Exited? {
        assert relayed[k] in relayed;
      }
    }
  }

  // ---------------------------------------------------------------------------
  // The runner

  class ProcessRunner {
    /** `_toolPath`: fixed when the runner is made. */
    const toolPath: string
    /** The events raised so far, in the order they were raised. */
    var trace: seq<Event>
    /** The argument strings of every attempt to start the tool, in order. */
    var launched: seq<string>

    constructor(fs: FileSystem, baseDirectory: string, currentDirectory: string)
      ensures toolPath == ToolPath(fs, baseDirectory, currentDirectory)
      ensures trace == [] && launched == []
    {
      var path := GetEmbeddedToolPath(fs, baseDirectory, currentDirectory);
      toolPath := path;
      trace := [];
      launched := [];
    }

    /** `RunProcessAsync(arguments)`. The tool's answer to `arguments` is `launch`;
        `fs` is the file system when the run starts. */
    method RunProcess(arguments: string, fs: FileSystem, launch: Launch)
      modifies this
      ensures trace == old(trace) + RunEvents(toolPath, fs, launch)
      ensures launched == old(launched) + (if toolPath in fs then [arguments] else [])
    {
      if toolPath !in fs {
        Raise(Error("Tool not found: " + toolPath));
        Raise(Exited(1));
        return;
      }
      launched := launched + [arguments];
      match launch
      case Failed(message) =>
        Raise(Error("Process error: " + message));
        Raise(Exited(1));
      case Ran(lines, exitCode) =>
        var i := 0;
        while i < |lines|
          invariant 0 <= i <= |lines|
          invariant trace == old(trace) + Relayed(lines[..i])
          invariant launched == old(launched) + [arguments]
        {
          assert lines[..i + 1][..i] == lines[..i];
          OnData(lines[i]);
          i := i + 1;
        }
        assert lines[..i] == lines;
        Raise(Exited(exitCode));
    }

    /** The `OutputDataReceived` and `ErrorDataReceived` handlers. */
    method OnData(l: StreamLine)
      modifies this
      ensures trace == old(trace) + Relay(l) && launched == old(launched)
    {
      match l
      case StdOut(Some(d)) =>
        if d != "" {
          Raise(Output(d));
        }
      case StdErr(Some(d)) =>
        if d != "" {
          Raise(Error(d));
        }
      case _ =>
    }

    method Raise(e: Event)
      modifies this
      ensures trace == old(trace) + [e] && launched == old(launched)
    {
      trace := trace + [e];
    }
  }
}
