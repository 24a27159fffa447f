/** `MainViewModel.BuildArguments`: turns the option fields of the view model into the one
    command-line string handed to the external `code2prompt` tool.

    The specification is two-staged. `ArgTokens` lists the arguments the options call for,
    group by group in the fixed order of the source; `Arguments` renders each argument with
    a leading blank, concatenates them and trims the result, as the `StringBuilder` loop does.
    `BuildArguments` is the step-by-step builder, proved equal to `Arguments`. */
module ArgumentBuilder {
  import opened Text

  /** The option fields and their initial values. `clipboard` is bound in the form but
      never read by the builder. */
  datatype Options = Options(
    path: string,
    outputFileName: string,
    clipboard: bool,
    includePatterns: string,
    excludePatterns: string,
    followSymlinks: bool,
    hidden: bool,
    noIgnore: bool,
    outputFormat: string,
    template: string,
    lineNumbers: bool,
    absolutePaths: bool,
    noCodeblock: bool,
    fullDirectoryTree: bool,
    diff: bool,
    gitDiffBranches: string,
    gitLogBranches: string,
    encoding: string,
    tokenFormat: string,
    tokenMap: bool,
    quiet: bool)

  const DefaultPath: string := "."
  const DefaultOutputFormat: string := "markdown"
  const DefaultEncoding: string := "cl100k"
  const DefaultTokenFormat: string := "format"

  /** The options a fresh view model starts with. */
  const DefaultOptions: Options := Options(
    path := DefaultPath,
    outputFileName := "code2prompt.txt",
    clipboard := false,
    includePatterns := "",
    excludePatterns := "",
    followSymlinks := false,
    hidden := false,
    noIgnore := false,
    outputFormat := DefaultOutputFormat,
    template := "",
    lineNumbers := false,
    absolutePaths := false,
    noCodeblock := false,
    fullDirectoryTree := false,
    diff := false,
    gitDiffBranches := "",
    gitLogBranches := "",
    encoding := DefaultEncoding,
    tokenFormat := DefaultTokenFormat,
    tokenMap := false,
    quiet := false)

  /** The characters an include or exclude pattern list is split on. */
  const PatternSeparators: set<char> := {'\n', '\r', ','}

  /** The positions of the command line, in the order the builder emits them. */
  datatype ArgKind =
    | PathArg | OutputFile | Include | Exclude | FollowSymlinks | Hidden | NoIgnore
    | OutputFormat | Template | LineNumbers | AbsolutePaths | NoCodeblock | FullDirectoryTree
    | Diff | GitDiffBranch | GitLogBranch | Encoding | TokenFormat | TokenMap | Quiet

  /** The place of a kind in the emission order. */
  function Rank(k: ArgKind): nat {
    match k
    case PathArg => 0
    case OutputFile => 1
    case Include => 2
    case Exclude => 3
    case FollowSymlinks => 4
    case Hidden => 5
    case NoIgnore => 6
    case OutputFormat => 7
    case Template => 8
    case LineNumbers => 9
    case AbsolutePaths => 10
    case NoCodeblock => 11
    case FullDirectoryTree => 12
    case Diff => 13
    case GitDiffBranch => 14
    case GitLogBranch => 15
    case Encoding => 16
    case TokenFormat => 17
    case TokenMap => 18
    case Quiet => 19
  }

  /** The flag of the external tool's command line for each kind (the path has none). */
  function FlagText(k: ArgKind): string {
    match k
    case PathArg => ""
    case OutputFile => "-O"
    case Include => "-i"
    case Exclude => "-e"
    case FollowSymlinks => "-L"
    case Hidden => "--hidden"
    case NoIgnore => "--no-ignore"
    case OutputFormat => "-F"
    case Template => "-t"
    case LineNumbers => "--line-numbers"
    case AbsolutePaths => "--absolute-paths"
    case NoCodeblock => "--no-codeblock"
    case FullDirectoryTree => "--full-directory-tree"
    case Diff => "--diff"
    case GitDiffBranch => "--git-diff-branch"
    case GitLogBranch => "--git-log-branch"
    case Encoding => "--encoding"
    case TokenFormat => "--token-format"
    case TokenMap => "--token-map"
    case Quiet => "-q"
  }

  /** One argument: the positional path, a flag alone, or a flag with its value. */
  datatype Arg = Positional(value: string) | Switch(flag: ArgKind) | Valued(flag: ArgKind, value: string) {
    function Kind(): ArgKind {
      match this
      case Positional(_) => PathArg
      case Switch(k) => k
      case Valued(k, _) => k
    }
  }

  /** The text one argument contributes: a blank, then the flag and its value. */
  function Render(a: Arg): string {
    match a
    case Positional(v) => " " + v
    case Switch(k) => " " + FlagText(k)
    case Valued(k, v) => " " + FlagText(k) + " " + v
  }

  function RenderAll(args: seq<Arg>): string {
    if args == [] then ""
    else RenderAll(args[..|args| - 1]) + Render(args[|args| - 1])
  }

  // ---------------------------------------------------------------------------
  // One function per option group

  function PathGroup(path: string): seq<Arg> {
    if path != "" && path != DefaultPath then [Positional(path)] else []
  }

  function OutputGroup(outputFileName: string): seq<Arg> {
    [Valued(OutputFile, outputFileName)]
  }

  /** The `-i`/`-e` arguments for the segments of a split pattern list: one per segment
      that is not white space only, trimmed, in order, duplicates kept. */
  function PatternArgs(kind: ArgKind, segments: seq<string>): seq<Arg> {
    if segments == [] then []
    else
      var last := segments[|segments| - 1];
      PatternArgs(kind, segments[..|segments| - 1]) + PatternArg(kind, last)
  }

  /** The argument one segment contributes: none when it is white space only. */
  function PatternArg(kind: ArgKind, segment: string): seq<Arg> {
    if IsBlank(segment) then [] else [Valued(kind, Trim(segment))]
  }

  function PatternGroup(kind: ArgKind, patterns: string): seq<Arg> {
    if patterns == "" then [] else PatternArgs(kind, SplitRemoveEmpty(patterns, PatternSeparators))
  }

  function SwitchGroup(kind: ArgKind, on: bool): seq<Arg> {
    if on then [Switch(kind)] else []
  }

  /** A value flag whose default value is implied by its absence. */
  function ValueGroup(kind: ArgKind, value: string, default: string): seq<Arg> {
    if value != "" && value != default then [Valued(kind, value)] else []
  }

  /** A branch pair `a,b`: emitted, both halves trimmed, when the text splits on ','
      into exactly two pieces. Empty halves are not rejected. */
  function BranchGroup(kind: ArgKind, branches: string): seq<Arg> {
    if branches == "" then []
    else
      var pieces := Split(branches, {','});
      if |pieces| == 2 then [Valued(kind, Trim(pieces[0]) + "," + Trim(pieces[1]))] else []
  }

  /** Every argument the options call for, group after group in the order the builder
      appends them. */
  function ArgTokens(o: Options): seq<Arg> {
      PathGroup(o.path)
    + OutputGroup(o.outputFileName)
    + PatternGroup(Include, o.includePatterns)
    + PatternGroup(Exclude, o.excludePatterns)
    + SwitchGroup(FollowSymlinks, o.followSymlinks)
    + SwitchGroup(Hidden, o.hidden)
    + SwitchGroup(NoIgnore, o.noIgnore)
    + ValueGroup(OutputFormat, o.outputFormat, DefaultOutputFormat)
    + ValueGroup(Template, o.template, "")
    + SwitchGroup(LineNumbers, o.lineNumbers)
    + SwitchGroup(AbsolutePaths, o.absolutePaths)
    + SwitchGroup(NoCodeblock, o.noCodeblock)
    + SwitchGroup(FullDirectoryTree, o.fullDirectoryTree)
    + SwitchGroup(Diff, o.diff)
    + BranchGroup(GitDiffBranch, o.gitDiffBranches)
    + BranchGroup(GitLogBranch, o.gitLogBranches)
    + ValueGroup(Encoding, o.encoding, DefaultEncoding)
    + ValueGroup(TokenFormat, o.tokenFormat, DefaultTokenFormat)
    + SwitchGroup(TokenMap, o.tokenMap)
    + SwitchGroup(Quiet, o.quiet)
  }

  /** The argument string `BuildArguments` returns. */
  function Arguments(o: Options): string {
    Trim(RenderAll(ArgTokens(o)))
  }

  // ---------------------------------------------------------------------------
  // The builder

  /** Appends the groups one by one to a buffer (the source's `StringBuilder`), in the
      order of `ArgTokens`, and trims the buffer at the end. */
  method BuildArguments(o: Options) returns (r: string)
    ensures r == Arguments(o)
  {
    var args: string := "";
    args := AppendPath(args, o.path);
    args := AppendOutput(args, o.outputFileName);
    args := AppendPatterns(args, Include, o.includePatterns);
    args := AppendPatterns(args, Exclude, o.excludePatterns);
    args := AppendSwitch(args, FollowSymlinks, o.followSymlinks);
    args := AppendSwitch(args, Hidden, o.hidden);
    args := AppendSwitch(args, NoIgnore, o.noIgnore);
    args := AppendValue(args, OutputFormat, o.outputFormat, DefaultOutputFormat);
    args := AppendValue(args, Template, o.template, "");
    args := AppendSwitch(args, LineNumbers, o.lineNumbers);
    args := AppendSwitch(args, AbsolutePaths, o.absolutePaths);
    args := AppendSwitch(args, NoCodeblock, o.noCodeblock);
    args := AppendSwitch(args, FullDirectoryTree, o.fullDirectoryTree);
    args := AppendSwitch(args, Diff, o.diff);
    args := AppendBranches(args, GitDiffBranch, o.gitDiffBranches);
    args := AppendBranches(args, GitLogBranch, o.gitLogBranches);
    args := AppendValue(args, Encoding, o.encoding, DefaultEncoding);
    args := AppendValue(args, TokenFormat, o.tokenFormat, DefaultTokenFormat);
    args := AppendSwitch(args, TokenMap, o.tokenMap);
    args := AppendSwitch(args, Quiet, o.quiet);
    RenderedGroups(o);
    r := Trim(args);
  }

  /** The path, unless it is empty or the current directory. */
  method AppendPath(args: string, path: string) returns (r: string)
    ensures r == args + RenderAll(PathGroup(path))
  {
    r := args;
    if path != "" && path != DefaultPath {
      r := AppendArg(r, Positional(path));
    }
  }

  /** The output file, always. */
  method AppendOutput(args: string, outputFileName: string) returns (r: string)
    ensures r == args + RenderAll(OutputGroup(outputFileName))
  {
    r := AppendArg(args, Valued(OutputFile, outputFileName));
  }

  /** A flag without a value, when its option is on. */
  method AppendSwitch(args: string, kind: ArgKind, on: bool) returns (r: string)
    ensures r == args + RenderAll(SwitchGroup(kind, on))
  {
    r := args;
    if on {
      r := AppendArg(r, Switch(kind));
    }
  }

  /** A flag with its value, when the value is neither empty nor the default. */
  method AppendValue(args: string, kind: ArgKind, value: string, default: string) returns (r: string)
    ensures r == args + RenderAll(ValueGroup(kind, value, default))
  {
    r := args;
    if value != "" && value != default {
      r := AppendArg(r, Valued(kind, value));
    }
  }

  /** One `foreach` over an include (`-i`) or exclude (`-e`) list: split on newline,
      carriage return and comma dropping empty entries, then `AppendSegments`. */
  method AppendPatterns(args: string, kind: ArgKind, patterns: string) returns (r: string)
    ensures r == args + RenderAll(PatternGroup(kind, patterns))
  {
    r := args;
    if patterns != "" {
      r := AppendSegments(r, kind, SplitRemoveEmpty(patterns, PatternSeparators));
    }
  }

  /** The loop over the segments of one list. */
  method AppendSegments(args: string, kind: ArgKind, segments: seq<string>) returns (r: string)
    ensures r == args + RenderAll(PatternArgs(kind, segments))
  {
    var text := "";
    var i := 0;
    assert segments[..0] == [];
    while i < |segments|
      invariant 0 <= i <= |segments|
      invariant text == RenderAll(PatternArgs(kind, segments[..i]))
    {
      PatternArgsStep(kind, segments, i);
      RenderAllAppend(PatternArgs(kind, segments[..i]), PatternArg(kind, segments[i]));
      text := AppendPattern(text, kind, segments[i]);
      i := i + 1;
    }
    assert segments[..i] == segments;
    r := args + text;
  }

  /** One segment: skipped when it is white space only, otherwise the flag and the
      trimmed segment. */
  method AppendPattern(args: string, kind: ArgKind, pattern: string) returns (r: string)
    ensures r == args + RenderAll(PatternArg(kind, pattern))
  {
    r := args;
    if !IsBlank(pattern) {
      r := AppendArg(r, Valued(kind, Trim(pattern)));
    }
  }

  /** Appends the text of one argument. */
  method AppendArg(args: string, a: Arg) returns (r: string)
    ensures r == args + RenderAll([a])
  {
    assert [a][..0] == [];
    r := args + Render(a);
  }

  /** One more segment adds its own argument. */
  lemma PatternArgsStep(kind: ArgKind, segments: seq<string>, i: int)
    requires 0 <= i < |segments|
    ensures PatternArgs(kind, segments[..i + 1]) == PatternArgs(kind, segments[..i]) + PatternArg(kind, segments[i])
  {
    assert segments[..i + 1][..i] == segments[..i];
  }

  /** A `--git-diff-branch` or `--git-log-branch` pair: appended, halves trimmed, only when
      splitting on ',' gives exactly two pieces. */
  method AppendBranches(args: string, kind: ArgKind, branches: string) returns (r: string)
    ensures r == args + RenderAll(BranchGroup(kind, branches))
  {
    r := args;
    if branches != "" {
      var pieces := Split(branches, {','});
      if |pieces| == 2 {
        r := AppendArg(r, Valued(kind, Trim(pieces[0]) + "," + Trim(pieces[1])));
      }
    }
  }

  /** The rendering of all arguments is the renderings of the groups, one after the other. */
  lemma RenderedGroups(o: Options)
    ensures RenderAll(ArgTokens(o)) ==
      ""
      + RenderAll(PathGroup(o.path))
      + RenderAll(OutputGroup(o.outputFileName))
      + RenderAll(PatternGroup(Include, o.includePatterns))
      + RenderAll(PatternGroup(Exclude, o.excludePatterns))
      + RenderAll(SwitchGroup(FollowSymlinks, o.followSymlinks))
      + RenderAll(SwitchGroup(Hidden, o.hidden))
      + RenderAll(SwitchGroup(NoIgnore, o.noIgnore))
      + RenderAll(ValueGroup(OutputFormat, o.outputFormat, DefaultOutputFormat))
      + RenderAll(ValueGroup(Template, o.template, ""))
      + RenderAll(SwitchGroup(LineNumbers, o.lineNumbers))
      + RenderAll(SwitchGroup(AbsolutePaths, o.absolutePaths))
      + RenderAll(SwitchGroup(NoCodeblock, o.noCodeblock))
      + RenderAll(SwitchGroup(FullDirectoryTree, o.fullDirectoryTree))
      + RenderAll(SwitchGroup(Diff, o.diff))
      + RenderAll(BranchGroup(GitDiffBranch, o.gitDiffBranches))
      + RenderAll(BranchGroup(GitLogBranch, o.gitLogBranches))
      + RenderAll(ValueGroup(Encoding, o.encoding, DefaultEncoding))
      + RenderAll(ValueGroup(TokenFormat, o.tokenFormat, DefaultTokenFormat))
      + RenderAll(SwitchGroup(TokenMap, o.tokenMap))
      + RenderAll(SwitchGroup(Quiet, o.quiet))
  {
    ghost var done := PathGroup(o.path);
    assert "" + RenderAll(done) == RenderAll(done);
    RenderAllAppend(done, OutputGroup(o.outputFileName));
    done := done + OutputGroup(o.outputFileName);
    RenderAllAppend(done, PatternGroup(Include, o.includePatterns));
    done := done + PatternGroup(Include, o.includePatterns);
    RenderAllAppend(done, PatternGroup(Exclude, o.excludePatterns));
    done := done + PatternGroup(Exclude, o.excludePatterns);
    RenderAllAppend(done, SwitchGroup(FollowSymlinks, o.followSymlinks));
    done := done + SwitchGroup(FollowSymlinks, o.followSymlinks);
    RenderAllAppend(done, SwitchGroup(Hidden, o.hidden));
    done := done + SwitchGroup(Hidden, o.hidden);
    RenderAllAppend(done, SwitchGroup(NoIgnore, o.noIgnore));
    done := done + SwitchGroup(NoIgnore, o.noIgnore);
    RenderAllAppend(done, ValueGroup(OutputFormat, o.outputFormat, DefaultOutputFormat));
    done := done + ValueGroup(OutputFormat, o.outputFormat, DefaultOutputFormat);
    RenderAllAppend(done, ValueGroup(Template, o.template, ""));
    done := done + ValueGroup(Template, o.template, "");
    RenderAllAppend(done, SwitchGroup(LineNumbers, o.lineNumbers));
    done := done + SwitchGroup(LineNumbers, o.lineNumbers);
    RenderAllAppend(done, SwitchGroup(AbsolutePaths, o.absolutePaths));
    done := done + SwitchGroup(AbsolutePaths, o.absolutePaths);
    RenderAllAppend(done, SwitchGroup(NoCodeblock, o.noCodeblock));
    done := done + SwitchGroup(NoCodeblock, o.noCodeblock);
    RenderAllAppend(done, SwitchGroup(FullDirectoryTree, o.fullDirectoryTree));
    done := done + SwitchGroup(FullDirectoryTree, o.fullDirectoryTree);
    RenderAllAppend(done, SwitchGroup(Diff, o.diff));
    done := done + SwitchGroup(Diff, o.diff);
    RenderAllAppend(done, BranchGroup(GitDiffBranch, o.gitDiffBranches));
    done := done + BranchGroup(GitDiffBranch, o.gitDiffBranches);
    RenderAllAppend(done, BranchGroup(GitLogBranch, o.gitLogBranches));
    done := done + BranchGroup(GitLogBranch, o.gitLogBranches);
    RenderAllAppend(done, ValueGroup(Encoding, o.encoding, DefaultEncoding));
    done := done + ValueGroup(Encoding, o.encoding, DefaultEncoding);
    RenderAllAppend(done, ValueGroup(TokenFormat, o.tokenFormat, DefaultTokenFormat));
    done := done + ValueGroup(TokenFormat, o.tokenFormat, DefaultTokenFormat);
    RenderAllAppend(done, SwitchGroup(TokenMap, o.tokenMap));
    done := done + SwitchGroup(TokenMap, o.tokenMap);
    RenderAllAppend(done, SwitchGroup(Quiet, o.quiet));
    done := done + SwitchGroup(Quiet, o.quiet);
  }

  /** Rendering distributes over concatenation. */
  lemma {:induction false} RenderAllAppend(xs: seq<Arg>, ys: seq<Arg>)
    ensures RenderAll(xs + ys) == RenderAll(xs) + RenderAll(ys)
    decreases |ys|
  {
    if ys == [] {
      assert xs + ys == xs;
    } else {
      var init, last := ys[..|ys| - 1], ys[|ys| - 1];
      assert (xs + ys)[..|xs + ys| - 1] == xs + init;
      assert (xs + ys)[|xs + ys| - 1] == last;
      RenderAllAppend(xs, init);
      Regrouped(RenderAll(xs), RenderAll(init), Render(last));
    }
  }

  /** Proof step: regrouping a concatenation, stated on plain string parameters so that the
      rendered terms are not unfolded while it is proved. */
  lemma Regrouped(a: string, b: string, c: string)
    ensures (a + b) + c == a + (b + c)
  {
  }
}
