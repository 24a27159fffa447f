# Code2PromptGUI core, modelled in Dafny

Code2PromptGUI is a desktop front end for the `code2prompt` command-line tool. The user
fills in a form: a repository path, an output file, include and exclude patterns, a set
of flags, git branch pairs and tokenizer settings. The view model turns those options
into one argument string. A `ProcessRunner` locates the bundled `code2prompt.exe` and
runs it with that string. The runner reports what the tool prints and how it exits
through three events. The view model's handlers turn the events into the log, the
status line and the result text.

This project models that core:

- `ArgumentBuilder`, `ListOptions` and `ArgumentProperties` cover `BuildArguments`.
  - The specification function `ArgumentBuilder.Arguments` lists the arguments the
    options call for, renders each one with a leading blank and trims the result.
  - The method `BuildArguments` appends group after group to a buffer. It is proved
    equal to `Arguments`.
  - The lemmas state which arguments the line holds for every option, in which order,
    and how pattern lists and branch pairs are read.
- `Models` covers `ProcessRunner`.
  - `GetEmbeddedToolPath` is the search over four candidate locations.
  - `RunProcess` appends the events it raises to the runner's `trace`, and every
    argument string it starts the tool with to `launched`.
  - The tool itself is a `Launch` value: its interleaved stream lines and exit code, or
    a start failure.
- `ViewModels` covers `MainViewModel`.
  - The class holds the form's options, `Status`, `Output`, `ResultContent`,
    `IsProcessing`, `IsAdvancedMode` and the attached window's size.
  - Each command and handler is a method proved to leave the state that a pure
    transition function over `ViewState` gives.
  - The lemmas about those functions state the outcome of a whole `Generate` run.
- `Text` and `Platform` model the .NET behaviour the core relies on:
  - `char.IsWhiteSpace` with its full table, `String.Trim`, `String.Split` with and
    without `RemoveEmptyEntries`;
  - `Path.Combine`, `Path.GetFileName` and `Environment.NewLine` on Windows;
  - a file system reduced to what `File.Exists` and `File.ReadAllText` observe.

`Code2LlmPrompt/ViewModels/MainWindowViewModel.cs` holds a second copy of `MainViewModel`,
identical up to a namespace qualifier (its `SaveResult` writes with `File.WriteAllTextAsync`
at line 360 where `MainViewModel.Commands.cs:143` writes with `System.IO.File.WriteAllTextAsync`): the same fields, commands, handlers and `BuildArguments`. One
model covers both copies, and the table below cites the partial-class files. The second
copy's members sit at these lines of `MainWindowViewModel.cs`:

- `BuildArguments`: 374-458.
- `ToggleAdvanced`: 237-254.
- `Generate`: 260-280.
- `BrowsePath`: 286-293.
- `BrowseOutput`: 299-306.
- `BrowseTemplate`: 312-319.
- `CopyResult`: 325-345.
- `SaveResult`: 351-368.
- `OnOutputReceived`: 464-481.
- `OnErrorReceived`: 487-490.
- `OnProcessExited`: 496-515.

## Model

| member | source | states |
|---|---|---|
| ArgumentBuilder.BuildArguments | Code2LlmPrompt/ViewModels/MainViewModel.ArgumentBuilder.cs:173-257 | The string built group by group and trimmed is exactly `Arguments(o)`: the rendering of `ArgTokens(o)` with a leading blank before each argument, trimmed |
| ArgumentBuilder.AppendPath | Code2LlmPrompt/ViewModels/MainViewModel.ArgumentBuilder.cs:177-178 | Appends the rendering of the path group: the path, unless it is empty or `.` |
| ArgumentBuilder.AppendOutput | Code2LlmPrompt/ViewModels/MainViewModel.ArgumentBuilder.cs:180 | Appends ` -O <file>`, always |
| ArgumentBuilder.AppendPatterns | Code2LlmPrompt/ViewModels/MainViewModel.ArgumentBuilder.cs:182-198 | Appends the rendering of the include or exclude pattern group of the list |
| ArgumentBuilder.AppendSegments | Code2LlmPrompt/ViewModels/MainViewModel.ArgumentBuilder.cs:184-188 | The `foreach` over the split segments appends the arguments of all segments, in order; the loop invariant is the rendering of the segments seen so far |
| ArgumentBuilder.AppendPattern | Code2LlmPrompt/ViewModels/MainViewModel.ArgumentBuilder.cs:186-187 | One segment appends its trimmed argument, or nothing when it is white space only |
| ArgumentBuilder.AppendSwitch | Code2LlmPrompt/ViewModels/MainViewModel.ArgumentBuilder.cs:200-228 | A flag without a value is appended exactly when its option is on |
| ArgumentBuilder.AppendValue | Code2LlmPrompt/ViewModels/MainViewModel.ArgumentBuilder.cs:209-213 | A value flag is appended with its value when that value is neither empty nor its default |
| ArgumentBuilder.AppendBranches | Code2LlmPrompt/ViewModels/MainViewModel.ArgumentBuilder.cs:230-242 | Appends the rendering of the branch group: the pair only when splitting on `,` gives two pieces |
| ArgumentBuilder.AppendArg | Code2LlmPrompt/ViewModels/MainViewModel.ArgumentBuilder.cs:178 | Appending one argument appends its rendering |
| ArgumentBuilder.RenderAllAppend | Code2LlmPrompt/ViewModels/MainViewModel.ArgumentBuilder.cs:175-254 | Rendering distributes over concatenation, so appending to one buffer renders the whole list |
| ArgumentProperties.LineContents | Code2LlmPrompt/ViewModels/MainViewModel.ArgumentBuilder.cs:173-257 | An argument is on the line if and only if it is one of these: the path (unless empty or `.`); `-O` with the output file; an include or exclude argument; a bare flag whose option is on; a value flag carrying its setting when that is neither empty nor the default; a branch argument |
| ArgumentProperties.LineMembers | Code2LlmPrompt/ViewModels/MainViewModel.ArgumentBuilder.cs:173-257 | An argument is on the line if and only if it belongs to one of the twenty groups |
| ArgumentProperties.LineOrdered | Code2LlmPrompt/ViewModels/MainViewModel.ArgumentBuilder.cs:173-257 | For all options, the arguments come in the fixed order of their kinds: path, `-O`, `-i`, `-e`, `-L`, `--hidden`, `--no-ignore`, `-F`, `-t`, the four layout flags (`--line-numbers`, `--absolute-paths`, `--no-codeblock`, `--full-directory-tree`), `--diff`, the two branch flags, `--encoding`, `--token-format`, `--token-map`, `-q` |
| ArgumentProperties.PathFirst | Code2LlmPrompt/ViewModels/MainViewModel.ArgumentBuilder.cs:177-180 | The line starts with the path when one is given, and with `-O <file>` otherwise |
| ArgumentProperties.ToggleOnLine | Code2LlmPrompt/ViewModels/MainViewModel.ArgumentBuilder.cs:200-254 | A bare flag is on the line if and only if its option is on |
| ArgumentProperties.ValueOnLine | Code2LlmPrompt/ViewModels/MainViewModel.ArgumentBuilder.cs:209-248 | `-F`, `-t`, `--encoding` and `--token-format` carry their option verbatim. Each is on the line if and only if its value is neither empty nor `markdown`, none, `cl100k` or `format` respectively |
| ArgumentProperties.PathOnLine | Code2LlmPrompt/ViewModels/MainViewModel.ArgumentBuilder.cs:177-178 | A path argument is on the line if and only if it is the path option and that is neither empty nor `.` |
| ArgumentProperties.OutputOnLine | Code2LlmPrompt/ViewModels/MainViewModel.ArgumentBuilder.cs:180 | `-O` is on the line with the output file name and with no other value |
| ArgumentProperties.ClipboardIgnored | Code2LlmPrompt/ViewModels/MainViewModel.ArgumentBuilder.cs:34-35 | The clipboard option, bound in the form, never changes the argument string |
| ArgumentProperties.SwitchGroupsHold | Code2LlmPrompt/ViewModels/MainViewModel.ArgumentBuilder.cs:200-254 | The ten bare-flag groups together hold exactly the bare flags whose options are on |
| ArgumentProperties.ValueGroupsHold | Code2LlmPrompt/ViewModels/MainViewModel.ArgumentBuilder.cs:209-248 | The four value groups together hold exactly the value flags whose values are set and differ from their defaults |
| ArgumentProperties.PathMembers | Code2LlmPrompt/ViewModels/MainViewModel.ArgumentBuilder.cs:177-178 | The path group holds the path if and only if it is neither empty nor `.` |
| ArgumentProperties.OutputMembers | Code2LlmPrompt/ViewModels/MainViewModel.ArgumentBuilder.cs:180 | The output group holds exactly `-O` with the output file |
| ArgumentProperties.SwitchMembers | Code2LlmPrompt/ViewModels/MainViewModel.ArgumentBuilder.cs:200-201 | A switch group holds its bare flag if and only if the option is on |
| ArgumentProperties.ValueMembers | Code2LlmPrompt/ViewModels/MainViewModel.ArgumentBuilder.cs:209-210 | A value group holds its flag with the value if and only if the value is neither empty nor the default |
| ArgumentProperties.PatternMembers | Code2LlmPrompt/ViewModels/MainViewModel.ArgumentBuilder.cs:182-198 | Every argument of a pattern group is its own flag with a non-empty value |
| ArgumentProperties.BranchMembers | Code2LlmPrompt/ViewModels/MainViewModel.ArgumentBuilder.cs:230-242 | Every argument of a branch group is its own flag with a value |
| ArgumentProperties.OutputOnlyLine | Code2LlmPrompt/ViewModels/MainViewModel.ArgumentBuilder.cs:177-256 | With no path (empty or `.`), every other option at its initial value and a non-empty file name that does not end in white space (so the final `Trim` leaves it alone), the string is `-O <file>` |
| ArgumentProperties.DefaultLine | Code2LlmPrompt/ViewModels/MainViewModel.ArgumentBuilder.cs:22-143 | A fresh form gives `-O code2prompt.txt` |
| ArgumentProperties.PathLine | Code2LlmPrompt/ViewModels/MainViewModel.ArgumentBuilder.cs:177-216 | A path other than empty or `.` that does not start with white space (so the final `Trim` leaves it alone), an output file and line numbers give `<path> -O <file> --line-numbers` |
| ArgumentProperties.TrimmedLine | Code2LlmPrompt/ViewModels/MainViewModel.ArgumentBuilder.cs:256 | The final trim removes only the leading blanks when the line starts and ends with other characters |
| ListOptions.PatternGroupSplit | Code2LlmPrompt/ViewModels/MainViewModel.ArgumentBuilder.cs:182-189 | A pattern list gives the arguments of every piece of its plain split, so dropping empty entries changes nothing |
| ListOptions.PatternArgsSkipEmpty | Code2LlmPrompt/ViewModels/MainViewModel.ArgumentBuilder.cs:184-186 | Removing empty entries before the white-space test gives the same arguments as keeping them |
| ListOptions.PatternArgsAppend | Code2LlmPrompt/ViewModels/MainViewModel.ArgumentBuilder.cs:184-188 | Segments contribute independently and in order: the arguments of `xs + ys` are those of `xs` followed by those of `ys` |
| ListOptions.PatternValues | Code2LlmPrompt/ViewModels/MainViewModel.ArgumentBuilder.cs:182-198 | Each `-i`/`-e` value is non-empty, holds no newline, carriage return or comma, and has no white space at either end |
| ListOptions.PatternArgsCons | Code2LlmPrompt/ViewModels/MainViewModel.ArgumentBuilder.cs:184-188 | A segment in front of others contributes its own argument in front of theirs |
| ListOptions.PatternListJoin | Code2LlmPrompt/ViewModels/MainViewModel.ArgumentBuilder.cs:184-188 | A list `first <sep> rest` gives the argument of `first`, then the arguments of `rest` |
| ListOptions.PatternListSingle | Code2LlmPrompt/ViewModels/MainViewModel.ArgumentBuilder.cs:184-188 | A list without separators gives its trimmed text once, or nothing when it is white space only |
| ListOptions.PatternDuplicates | Code2LlmPrompt/ViewModels/MainViewModel.ArgumentBuilder.cs:182-189 | `x,y` newline newline `x` gives `-i x -i y -i x`: the empty line is skipped and the repeat is kept in place |
| ListOptions.BranchOnlyWithOneComma | Code2LlmPrompt/ViewModels/MainViewModel.ArgumentBuilder.cs:230-242 | A branch pair is passed on if and only if its text holds exactly one comma |
| ListOptions.BranchHalves | Code2LlmPrompt/ViewModels/MainViewModel.ArgumentBuilder.cs:232-233 | A text with one comma is its two split pieces joined by that comma |
| ListOptions.BranchValue | Code2LlmPrompt/ViewModels/MainViewModel.ArgumentBuilder.cs:232-234 | The pair `p,q` is passed on as `Trim(p),Trim(q)`, even when a half is empty |
| ListOptions.BranchTrailingComma | Code2LlmPrompt/ViewModels/MainViewModel.ArgumentBuilder.cs:230-235 | `main,` is passed on unchanged as a pair with an empty second half |
| Text.Trim | Code2LlmPrompt/ViewModels/MainViewModel.ArgumentBuilder.cs:256 | The trimmed text neither starts nor ends with white space, and it is empty if and only if the input is white space only |
| Text.TrimUnchanged | Code2LlmPrompt/ViewModels/MainViewModel.ArgumentBuilder.cs:187 | Trimming a text without white space at its ends changes nothing, so trimming is idempotent |
| Text.TrimIsSlice | Code2LlmPrompt/ViewModels/MainViewModel.ArgumentBuilder.cs:187 | The trimmed text is the slice of the input between its leading and trailing white space |
| Text.TrimAvoids | Code2LlmPrompt/ViewModels/MainViewModel.ArgumentBuilder.cs:187 | Trimming adds no character: a segment without separators stays without them |
| Text.Split | Code2LlmPrompt/ViewModels/MainViewModel.ArgumentBuilder.cs:232 | Splitting gives one piece more than the text has separators |
| Text.SplitPiecesFree | Code2LlmPrompt/ViewModels/MainViewModel.ArgumentBuilder.cs:184 | No piece of a split holds a separator |
| Text.SplitRejoin | Code2LlmPrompt/ViewModels/MainViewModel.ArgumentBuilder.cs:232 | The pieces joined by the separators found give back the text |
| Text.SplitAvoiding | Code2LlmPrompt/ViewModels/MainViewModel.ArgumentBuilder.cs:184 | A text without separators splits into itself alone |
| Text.SplitAtFirst | Code2LlmPrompt/ViewModels/MainViewModel.ArgumentBuilder.cs:184 | A text cut at its first separator splits into the part before it, then the pieces of the rest |
| Platform.Combine | Code2LlmPrompt/Models/ProcessRunner.cs:123-126 | An empty first part gives the second part unchanged. For a non-empty first part, the result starts with the first part and ends with the second, and it is exactly their concatenation if and only if the first part ends with a directory separator |
| Platform.FileNameIsLastComponent | Code2LlmPrompt/ViewModels/MainViewModel.Commands.cs:144 | `GetFileName` gives a suffix of the path without directory separators, preceded by a separator whenever it is shorter than the path: the text after the last separator |
| Models.Candidates | Code2LlmPrompt/Models/ProcessRunner.cs:121-127 | There are four candidate paths |
| Models.FirstExisting | Code2LlmPrompt/Models/ProcessRunner.cs:130-136 | The index found is that of the first candidate that exists, and every earlier candidate is missing |
| Models.ToolPathChoice | Code2LlmPrompt/Models/ProcessRunner.cs:118-140 | The tool path exists if and only if some candidate exists. It is then the first candidate that does; otherwise it is the first candidate |
| Models.GetEmbeddedToolPath | Code2LlmPrompt/Models/ProcessRunner.cs:118-140 | The `foreach` returns `ToolPath`: the first existing candidate, or the first candidate when none exists |
| Models.FirstExistingIs | Code2LlmPrompt/Models/ProcessRunner.cs:130-136 | A scan that stops at index `i` stops at the first existing candidate |
| Models.RelayedOutput | Code2LlmPrompt/Models/ProcessRunner.cs:69-75 | Standard output is relayed as output events: every non-empty line once and in order, with null and empty lines dropped |
| Models.RelayedErrors | Code2LlmPrompt/Models/ProcessRunner.cs:78-84 | Standard error is relayed as error events: every non-empty line once and in order, with null and empty lines dropped |
| Models.RelayedLines | Code2LlmPrompt/Models/ProcessRunner.cs:69-84 | The stream handlers never raise an exit event and never relay an empty line |
| Models.RunEndsWithExit | Code2LlmPrompt/Models/ProcessRunner.cs:39-111 | Every run raises exactly one exit event, as its last event. The code is 1 when the tool is missing or fails to start, and the tool's own code otherwise |
| Models.ProcessRunner.constructor | Code2LlmPrompt/Models/ProcessRunner.cs:27-31 | The tool path is fixed to `ToolPath` of the file system at construction; nothing has been raised or launched yet |
| Models.ProcessRunner.RunProcess | Code2LlmPrompt/Models/ProcessRunner.cs:39-111 | The trace grows by exactly the run's events. The arguments are launched only when the tool exists. A missing tool raises `Tool not found: <path>` then exit 1. A start failure raises `Process error: <message>` then exit 1 |
| Models.ProcessRunner.OnData | Code2LlmPrompt/Models/ProcessRunner.cs:69-84 | One stream notification raises its line on its own stream, or nothing when it is null or empty |
| ViewModels.OutputReceived | Code2LlmPrompt/ViewModels/MainViewModel.EventHandlers.cs:26-43 | A line of output never changes the status, the busy flag or the options; the log gains exactly the line and a line break, followed by the read-error line when the output file exists but cannot be read. The result becomes the file's text when it is readable and is otherwise kept |
| ViewModels.Generated | Code2LlmPrompt/ViewModels/MainViewModel.Commands.cs:43-63 | `Generate` while busy leaves the state as it is |
| ViewModels.Toggled | Code2LlmPrompt/ViewModels/MainViewModel.Commands.cs:20-37 | The mode is flipped. An attached window gets 1200x800 in advanced mode and 550x420 otherwise. No window is attached by toggling. Nothing else changes |
| ViewModels.CopiedResult | Code2LlmPrompt/ViewModels/MainViewModel.Commands.cs:108-128 | Only the status can change, and nothing changes without a result. With a result but no window the status is always `Clipboard not available`, and `Result copied to clipboard` needs a window and a successful copy |
| ViewModels.SavedResult | Code2LlmPrompt/ViewModels/MainViewModel.Commands.cs:134-151 | Only the status can change, and nothing changes without a result or when the picker is cancelled |
| ViewModels.SavedFiles | Code2LlmPrompt/ViewModels/MainViewModel.Commands.cs:134-151 | The file system is untouched, unless there is a result, a picked file and a successful write. In that case the picked file holds the result |
| ViewModels.MainViewModel.constructor | Code2LlmPrompt/ViewModels/MainViewModel.Core.cs:64-72 | The fields start as the source declares them (status `Ready`, empty log and result, idle, compact mode, no window, default options). The view model owns a fresh runner whose tool path is `ToolPath` and which has raised no event and launched no process |
| ViewModels.MainViewModel.SetMainWindow | Code2LlmPrompt/ViewModels/MainViewModel.Core.cs:78-81 | Attaches the window and changes nothing else |
| ViewModels.MainViewModel.ToggleAdvanced | Code2LlmPrompt/ViewModels/MainViewModel.Commands.cs:20-37 | The new state is `Toggled` of the old one |
| ViewModels.MainViewModel.Generate | Code2LlmPrompt/ViewModels/MainViewModel.Commands.cs:43-63 | The new state is `Generated` of the old one. The runner's trace grows by the run's events, or by nothing when busy or on an exception. The argument string of the old options is launched exactly when the view model was idle, no exception escaped and the tool exists |
| ViewModels.MainViewModel.RunTool | Code2LlmPrompt/ViewModels/MainViewModel.Commands.cs:54-55 | Builds the arguments and runs the tool. The state is that after the handlers take the run's events, and the arguments launched are `Arguments(options)` |
| ViewModels.MainViewModel.HandleEvents | Code2LlmPrompt/ViewModels/MainViewModel.Core.cs:67-69 | The subscribed handlers take the events one at a time, in the order raised |
| ViewModels.MainViewModel.OnEvent | Code2LlmPrompt/ViewModels/MainViewModel.Core.cs:67-69 | Each event goes to its own handler |
| ViewModels.MainViewModel.OnOutputReceived | Code2LlmPrompt/ViewModels/MainViewModel.EventHandlers.cs:26-43 | Logs the line with a line break. When the output file exists, its text becomes the result, or its read error is logged |
| ViewModels.MainViewModel.OnErrorReceived | Code2LlmPrompt/ViewModels/MainViewModel.EventHandlers.cs:49-52 | Logs `ERROR: <line>` and a line break, and changes nothing else |
| ViewModels.MainViewModel.OnProcessExited | Code2LlmPrompt/ViewModels/MainViewModel.EventHandlers.cs:58-77 | Clears the busy flag and sets `Completed` or `Failed` by the exit code. On exit 0 with the output file present, a readable file gives the result and `Completed - Result ready`, and an unreadable one logs its read error |
| ViewModels.MainViewModel.BrowsePath | Code2LlmPrompt/ViewModels/MainViewModel.Commands.cs:69-76 | A picked folder becomes the path; a cancelled picker changes nothing |
| ViewModels.MainViewModel.BrowseOutput | Code2LlmPrompt/ViewModels/MainViewModel.Commands.cs:82-89 | A picked file becomes the output file; a cancelled picker changes nothing |
| ViewModels.MainViewModel.BrowseTemplate | Code2LlmPrompt/ViewModels/MainViewModel.Commands.cs:95-102 | A picked file becomes the template; a cancelled picker changes nothing |
| ViewModels.MainViewModel.CopyResult | Code2LlmPrompt/ViewModels/MainViewModel.Commands.cs:108-128 | The new state is `CopiedResult` of the old one: only the status, by the clipboard's outcome |
| ViewModels.MainViewModel.SaveResult | Code2LlmPrompt/ViewModels/MainViewModel.Commands.cs:134-151 | The new state is `SavedResult` of the old one, and the file system afterwards is `SavedFiles`. The status names the file by `GetFileName` |
| ViewModels.GenerateOutcome | Code2LlmPrompt/ViewModels/MainViewModel.Commands.cs:43-63 | A `Generate` from an idle state never leaves the view model busy. The status is `Error` on an exception. When the tool ran and exited 0, it is `Completed - Result ready` if the output file is readable and `Completed` if not. Every other case gives `Failed`. On an exception the log is exactly `Error: ` and the message. The result holds the file's text exactly when the file is readable and the tool ran and either succeeded or printed a line of output; otherwise it is empty |
| ViewModels.RanOutcome | Code2LlmPrompt/ViewModels/MainViewModel.EventHandlers.cs:26-77 | For a tool that ran, the lines leave the status and flag alone. The exit code then decides the status, and the result is as in `GenerateOutcome` |
| ViewModels.ToolMissingOutcome | Code2LlmPrompt/Models/ProcessRunner.cs:42-47 | With the tool missing, `Generate` ends with the log `ERROR: Tool not found: <path>` and a line break, no result, idle, `Failed` |
| ViewModels.LaunchFailureOutcome | Code2LlmPrompt/Models/ProcessRunner.cs:105-110 | When the tool fails to start, `Generate` ends with the log `ERROR: Process error: <message>` and a line break, no result, idle, `Failed` |
| ViewModels.FailedRun | Code2LlmPrompt/ViewModels/MainViewModel.EventHandlers.cs:49-77 | A run of one error line and exit 1 leaves that line alone in the log, no result, idle, `Failed` |
| ViewModels.GenerateLog | Code2LlmPrompt/ViewModels/MainViewModel.EventHandlers.cs:26-43 | Take a tool that writes only standard output, with an output file that is readable or absent. The log after `Generate` is every line of its output, in order, each followed by a line break |
| ViewModels.DispatchLog | Code2LlmPrompt/ViewModels/MainViewModel.EventHandlers.cs:26-43 | Output events each append their line and a line break when the output file is readable or absent |
| ViewModels.OutputStep | Code2LlmPrompt/ViewModels/MainViewModel.EventHandlers.cs:28-36 | With the output file readable or absent, a line of output only extends the log, by the line and a line break |
| ViewModels.HandleKeeps | Code2LlmPrompt/ViewModels/MainViewModel.EventHandlers.cs:26-77 | Every handler only appends to the log and never touches the options, the mode or the window |
| ViewModels.DispatchKeeps | Code2LlmPrompt/ViewModels/MainViewModel.EventHandlers.cs:26-77 | Over any sequence of events, the log keeps its start and the options, mode and window stay as they were |
| ViewModels.DispatchLines | Code2LlmPrompt/ViewModels/MainViewModel.EventHandlers.cs:26-52 | Output and error lines leave the status and busy flag alone. The result becomes the file's text once an output line arrives while the file is readable, and stays as it was otherwise |
| ViewModels.DispatchAppend | Code2LlmPrompt/ViewModels/MainViewModel.Core.cs:67-69 | Handling two runs of events one after the other is handling their concatenation |
| ViewModels.ToggleTwice | Code2LlmPrompt/ViewModels/MainViewModel.Commands.cs:20-37 | Toggling twice restores the mode. It restores the whole state when no window is attached or the window's size matches the mode |

## Left out

- Starting a real process is not modelled: the search for the executable, the environment variable `RUST_BACKTRACE`, the working directory and the asynchronous stream reads. The tool's behaviour is the `Launch` parameter: its interleaved stream lines and exit code, or the message of a start failure.
- Event order is modelled as one sequence: all stream lines in the order they arrive, then the exit. In .NET, `Exited` may be raised before the two asynchronous readers have delivered their last lines. That race, and the reads of the output file while the tool is still writing it, are not captured.
- Thread hops and `await` points are not modelled. The handlers take the runner's events in the order they were raised, after `RunProcess` returns. The handlers never act on the runner, so the resulting state is the same as with interleaved delivery.
- ViewModels.Generated: `fault` stands for an exception that escapes the `try` in `Generate` before any event is raised. An exception raised by a handler part-way through a run is not modelled.
- ViewModels.LaunchFailureOutcome: a start failure is modelled before any stream line. A failure in `WaitForExitAsync` after lines have arrived is not modelled.
- The file system is a snapshot. One map is the file system that `RunProcess` checks for the tool; a second is what the handlers read as the output file. A file changing between two reads within one run is not captured.
- `CheckToolAvailability` and `ToolStatus` (the tool indicator set from the constructor) are not modelled. `CheckToolAvailability` reads the runner's private field through reflection and only sets a display string.
- The folder and file pickers, the clipboard and file writes are not modelled; each is replaced by the outcome it delivers. The outcomes are the picked path or a cancellation, the clipboard being present and the copy succeeding or throwing, and the write succeeding or throwing with its message.
- Output size: both read sites call `File.ReadAllText` on the whole output file (`Code2LlmPrompt/ViewModels/MainViewModel.EventHandlers.cs:36` and `:69`), so the model reads the whole file and no size bound or truncation is modelled.
- Branch pairs: `BuildArguments` only tests `branches.Length == 2` (`Code2LlmPrompt/ViewModels/MainViewModel.ArgumentBuilder.cs:233` and `:240`) and never checks the halves, so `main,` is passed on with an empty second half (`ListOptions.BranchTrailingComma`).
- Null strings are not modelled. Every string field starts non-null; the pickers' null results are `Option.None`; the runner's null stream lines are `StreamLine` values with `None`.
- The platform is Windows, as the bundled `code2prompt.exe` implies: the line break is `\r\n` and the directory separators are `\` and `/`. `Platform.Combine` covers only a relative second part that does not start with a separator, the only kind the core passes.
- Platform.GetFileName: path roots are not modelled. .NET stops at the end of a root, so `C:foo` gives `foo`, while the model scans back to the last separator only. The paths it receives come from the save picker and are absolute, so the result is the same for them.
- The view layer, the application start-up, the custom title bar and the view locator are not part of this model.
- Window sizes are modelled as the size last set by the view model; the user resizing the window is not captured.
