/** What the argument line says about the options: which arguments it holds for each
    option, in which order, how pattern lists and branch pairs are read, and what the
    final string looks like. */
module ArgumentProperties {
  import opened Text
  import opened ArgumentBuilder
  import ListOptions

  // ---------------------------------------------------------------------------
  // What each group holds

  lemma PathMembers(path: string, a: Arg)
    ensures a in PathGroup(path) <==> a == Positional(path) && path != "" && path != DefaultPath
  {
  }

  lemma OutputMembers(outputFileName: string, a: Arg)
    ensures a in OutputGroup(outputFileName) <==> a == Valued(OutputFile, outputFileName)
  {
  }

  lemma SwitchMembers(kind: ArgKind, on: bool, a: Arg)
    ensures a in SwitchGroup(kind, on) <==> a == Switch(kind) && on
  {
  }

  lemma ValueMembers(kind: ArgKind, value: string, default: string, a: Arg)
    ensures a in ValueGroup(kind, value, default) <==> a == Valued(kind, value) && value != "" && value != default
  {
  }

  lemma PatternMembers(kind: ArgKind, patterns: string, a: Arg)
    ensures a in PatternGroup(kind, patterns) ==> a.Valued? && a.flag == kind && a.value != ""
  {
    ListOptions.PatternValues(kind, patterns);
  }

  lemma BranchMembers(kind: ArgKind, branches: string, a: Arg)
    ensures a in BranchGroup(kind, branches) ==> a.Valued? && a.flag == kind
  {
  }

  /** All members of the line come from one of its groups. */
  lemma LineMembers(o: Options, a: Arg)
    ensures a in ArgTokens(o) <==>
      || a in PathGroup(o.path)
      || a in OutputGroup(o.outputFileName)
      || a in PatternGroup(Include, o.includePatterns)
      || a in PatternGroup(Exclude, o.excludePatterns)
      || a in SwitchGroup(FollowSymlinks, o.followSymlinks)
      || a in SwitchGroup(Hidden, o.hidden)
      || a in SwitchGroup(NoIgnore, o.noIgnore)
      || a in ValueGroup(OutputFormat, o.outputFormat, DefaultOutputFormat)
      || a in ValueGroup(Template, o.template, "")
      || a in SwitchGroup(LineNumbers, o.lineNumbers)
      || a in SwitchGroup(AbsolutePaths, o.absolutePaths)
      || a in SwitchGroup(NoCodeblock, o.noCodeblock)
      || a in SwitchGroup(FullDirectoryTree, o.fullDirectoryTree)
      || a in SwitchGroup(Diff, o.diff)
      || a in BranchGroup(GitDiffBranch, o.gitDiffBranches)
      || a in BranchGroup(GitLogBranch, o.gitLogBranches)
      || a in ValueGroup(Encoding, o.encoding, DefaultEncoding)
      || a in ValueGroup(TokenFormat, o.tokenFormat, DefaultTokenFormat)
      || a in SwitchGroup(TokenMap, o.tokenMap)
      || a in SwitchGroup(Quiet, o.quiet)
  {
    var d0 := PathGroup(o.path);
    var g1, g2, g3, g4 := OutputGroup(o.outputFileName), PatternGroup(Include, o.includePatterns),
      PatternGroup(Exclude, o.excludePatterns), SwitchGroup(FollowSymlinks, o.followSymlinks);
    InFour(a, d0, g1, g2, g3, g4);
    var d1 := d0 + g1 + g2 + g3 + g4;
    var g5, g6, g7, g8 := SwitchGroup(Hidden, o.hidden), SwitchGroup(NoIgnore, o.noIgnore),
      ValueGroup(OutputFormat, o.outputFormat, DefaultOutputFormat), ValueGroup(Template, o.template, "");
    InFour(a, d1, g5, g6, g7, g8);
    var d2 := d1 + g5 + g6 + g7 + g8;
    var g9, g10, g11, g12 := SwitchGroup(LineNumbers, o.lineNumbers), SwitchGroup(AbsolutePaths, o.absolutePaths),
      SwitchGroup(NoCodeblock, o.noCodeblock), SwitchGroup(FullDirectoryTree, o.fullDirectoryTree);
    InFour(a, d2, g9, g10, g11, g12);
    var d3 := d2 + g9 + g10 + g11 + g12;
    var g13, g14, g15, g16 := SwitchGroup(Diff, o.diff), BranchGroup(GitDiffBranch, o.gitDiffBranches),
      BranchGroup(GitLogBranch, o.gitLogBranches), ValueGroup(Encoding, o.encoding, DefaultEncoding);
    InFour(a, d3, g13, g14, g15, g16);
    var d4 := d3 + g13 + g14 + g15 + g16;
    var g17, g18, g19 := ValueGroup(TokenFormat, o.tokenFormat, DefaultTokenFormat), SwitchGroup(TokenMap, o.tokenMap),
      SwitchGroup(Quiet, o.quiet);
    InThree(a, d4, g17, g18, g19);
  }

  lemma InThree(a: Arg, xs: seq<Arg>, g1: seq<Arg>, g2: seq<Arg>, g3: seq<Arg>)
    ensures a in xs + g1 + g2 + g3 <==> a in xs || a in g1 || a in g2 || a in g3
  {
  }

  lemma InFour(a: Arg, xs: seq<Arg>, g1: seq<Arg>, g2: seq<Arg>, g3: seq<Arg>, g4: seq<Arg>)
    ensures a in xs + g1 + g2 + g3 + g4 <==> a in xs || a in g1 || a in g2 || a in g3 || a in g4
  {
  }

  /** The line holds exactly: the path unless it is empty or ".", the output file, the
      pattern and branch arguments, each flag without a value whose option is on, and
      each value flag whose value is neither empty nor its default. */
  lemma LineContents(o: Options, a: Arg)
    ensures a in ArgTokens(o) <==>
      || (a == Positional(o.path) && o.path != "" && o.path != DefaultPath)
      || a == Valued(OutputFile, o.outputFileName)
      || a in PatternGroup(Include, o.includePatterns)
      || a in PatternGroup(Exclude, o.excludePatterns)
      || (a.Switch? && Toggle(o, a.flag))
      || (a.Valued? && IsValueKind(a.flag) && a.value == Setting(o, a.flag)
          && a.value != "" && a.value != Default(a.flag))
      || a in BranchGroup(GitDiffBranch, o.gitDiffBranches)
      || a in BranchGroup(GitLogBranch, o.gitLogBranches)
    ensures a in PatternGroup(Include, o.includePatterns) ==> a.Valued? && a.flag == Include && a.value != ""
    ensures a in PatternGroup(Exclude, o.excludePatterns) ==> a.Valued? && a.flag == Exclude && a.value != ""
    ensures a in BranchGroup(GitDiffBranch, o.gitDiffBranches) ==> a.Valued? && a.flag == GitDiffBranch
    ensures a in BranchGroup(GitLogBranch, o.gitLogBranches) ==> a.Valued? && a.flag == GitLogBranch
  {
    LineMembers(o, a);
    PathMembers(o.path, a);
    OutputMembers(o.outputFileName, a);
    PatternMembers(Include, o.includePatterns, a);
    PatternMembers(Exclude, o.excludePatterns, a);
    BranchMembers(GitDiffBranch, o.gitDiffBranches, a);
    BranchMembers(GitLogBranch, o.gitLogBranches, a);
    SwitchGroupsHold(o, a);
    ValueGroupsHold(o, a);
  }

  /** The ten switch groups hold the bare flags whose options are on. */
  lemma SwitchGroupsHold(o: Options, a: Arg)
    ensures
      || a in SwitchGroup(FollowSymlinks, o.followSymlinks)
      || a in SwitchGroup(Hidden, o.hidden)
      || a in SwitchGroup(NoIgnore, o.noIgnore)
      || a in SwitchGroup(LineNumbers, o.lineNumbers)
      || a in SwitchGroup(AbsolutePaths, o.absolutePaths)
      || a in SwitchGroup(NoCodeblock, o.noCodeblock)
      || a in SwitchGroup(FullDirectoryTree, o.fullDirectoryTree)
      || a in SwitchGroup(Diff, o.diff)
      || a in SwitchGroup(TokenMap, o.tokenMap)
      || a in SwitchGroup(Quiet, o.quiet)
      <==> a.Switch? && Toggle(o, a.flag)
  {
    SwitchMembers(FollowSymlinks, o.followSymlinks, a);
    SwitchMembers(Hidden, o.hidden, a);
    SwitchMembers(NoIgnore, o.noIgnore, a);
    SwitchMembers(LineNumbers, o.lineNumbers, a);
    SwitchMembers(AbsolutePaths, o.absolutePaths, a);
    SwitchMembers(NoCodeblock, o.noCodeblock, a);
    SwitchMembers(FullDirectoryTree, o.fullDirectoryTree, a);
    SwitchMembers(Diff, o.diff, a);
    SwitchMembers(TokenMap, o.tokenMap, a);
    SwitchMembers(Quiet, o.quiet, a);
    if a.Switch? {
      ToggleCases(o, a.flag);
    }
  }

  lemma ToggleCases(o: Options, k: ArgKind)
    ensures Toggle(o, k) <==>
      || (k == FollowSymlinks && o.followSymlinks)
      || (k == Hidden && o.hidden)
      || (k == NoIgnore && o.noIgnore)
      || (k == LineNumbers && o.lineNumbers)
      || (k == AbsolutePaths && o.absolutePaths)
      || (k == NoCodeblock && o.noCodeblock)
      || (k == FullDirectoryTree && o.fullDirectoryTree)
      || (k == Diff && o.diff)
      || (k == TokenMap && o.tokenMap)
      || (k == Quiet && o.quiet)
  {
  }

  /** The four value groups hold the value flags whose values are set. */
  lemma ValueGroupsHold(o: Options, a: Arg)
    ensures
      || a in ValueGroup(OutputFormat, o.outputFormat, DefaultOutputFormat)
      || a in ValueGroup(Template, o.template, "")
      || a in ValueGroup(Encoding, o.encoding, DefaultEncoding)
      || a in ValueGroup(TokenFormat, o.tokenFormat, DefaultTokenFormat)
      <==> (a.Valued? && IsValueKind(a.flag) && a.value == Setting(o, a.flag)
            && a.value != "" && a.value != Default(a.flag))
  {
    ValueMembers(OutputFormat, o.outputFormat, DefaultOutputFormat, a);
    ValueMembers(Template, o.template, "", a);
    ValueMembers(Encoding, o.encoding, DefaultEncoding, a);
    ValueMembers(TokenFormat, o.tokenFormat, DefaultTokenFormat, a);
  }

  // ---------------------------------------------------------------------------
  // Each option on the line

  /** The option that turns a flag without a value on, for the ten such flags. */
  function Toggle(o: Options, k: ArgKind): bool {
    match k
    case FollowSymlinks => o.followSymlinks
    case Hidden => o.hidden
    case NoIgnore => o.noIgnore
    case LineNumbers => o.lineNumbers
    case AbsolutePaths => o.absolutePaths
    case NoCodeblock => o.noCodeblock
    case FullDirectoryTree => o.fullDirectoryTree
    case Diff => o.diff
    case TokenMap => o.tokenMap
    case Quiet => o.quiet
    case _ => false
  }

  /** The four flags that carry a free-form value. */
  predicate IsValueKind(k: ArgKind) {
    k == OutputFormat || k == Template || k == Encoding || k == TokenFormat
  }

  /** The option a value flag carries. */
  function Setting(o: Options, k: ArgKind): string {
    match k
    case OutputFormat => o.outputFormat
    case Template => o.template
    case Encoding => o.encoding
    case TokenFormat => o.tokenFormat
    case _ => ""
  }

  /** The value a value flag's absence stands for (the template has none). */
  function Default(k: ArgKind): string {
    match k
    case OutputFormat => DefaultOutputFormat
    case Encoding => DefaultEncoding
    case TokenFormat => DefaultTokenFormat
    case _ => ""
  }

  /** A flag without a value is on the line exactly when its option is on; no other kind
      of argument is ever written as a bare flag. */
  lemma ToggleOnLine(o: Options, k: ArgKind)
    ensures Switch(k) in ArgTokens(o) <==> Toggle(o, k)
  {
    LineContents(o, Switch(k));
  }

  /** `-F`, `-t`, `--encoding` and `--token-format` carry their option verbatim, and are on
      the line exactly when it is neither empty nor the default. */
  lemma ValueOnLine(o: Options, k: ArgKind, v: string)
    requires IsValueKind(k)
    ensures Valued(k, v) in ArgTokens(o) <==> v == Setting(o, k) && v != "" && v != Default(k)
  {
    LineContents(o, Valued(k, v));
  }

  /** The path is on the line, verbatim, unless it is empty or the current directory. */
  lemma PathOnLine(o: Options, p: string)
    ensures Positional(p) in ArgTokens(o) <==> p == o.path && p != "" && p != DefaultPath
  {
    LineContents(o, Positional(p));
  }

  /** `-O` is always on the line, with the output file name and no other value. */
  lemma OutputOnLine(o: Options, v: string)
    ensures Valued(OutputFile, v) in ArgTokens(o) <==> v == o.outputFileName
  {
    LineContents(o, Valued(OutputFile, v));
  }

  /** The `clipboard` option does not change the line. */
  lemma ClipboardIgnored(o: Options, clipboard: bool)
    ensures Arguments(o.(clipboard := clipboard)) == Arguments(o)
  {
    var o' := o.(clipboard := clipboard);
    assert o' == Options(o.path, o.outputFileName, clipboard, o.includePatterns, o.excludePatterns,
      o.followSymlinks, o.hidden, o.noIgnore, o.outputFormat, o.template, o.lineNumbers,
      o.absolutePaths, o.noCodeblock, o.fullDirectoryTree, o.diff, o.gitDiffBranches,
      o.gitLogBranches, o.encoding, o.tokenFormat, o.tokenMap, o.quiet);
    assert ArgTokens(o') == ArgTokens(o);
  }

  // ---------------------------------------------------------------------------
  // Order

  /** The arguments come in the order of their kinds: path, `-O`, `-i`, `-e`, `-L`,
      `--hidden`, `--no-ignore`, `-F`, `-t`, `--line-numbers`, `--absolute-paths`,
      `--no-codeblock`, `--full-directory-tree`, `--diff`, `--git-diff-branch`,
      `--git-log-branch`, `--encoding`, `--token-format`, `--token-map`, `-q`. */
  predicate RankOrdered(args: seq<Arg>) {
    forall i, j | 0 <= i < j < |args| :: Rank(args[i].Kind()) <= Rank(args[j].Kind())
  }

  /** `args` is ordered by kind and no kind in it comes after rank `r`; defined one
      argument at a time from the end. */
  predicate RanksUpTo(args: seq<Arg>, r: nat) {
    if args == [] then true
    else
      var last := args[|args| - 1];
      Rank(last.Kind()) <= r && RanksUpTo(args[..|args| - 1], Rank(last.Kind()))
  }

  predicate AllOfKind(args: seq<Arg>, k: ArgKind) {
    forall i | 0 <= i < |args| :: args[i].Kind() == k
  }

  /** Appending arguments of one kind after arguments of no later kind keeps the order. */
  lemma {:induction false} OrderedAppend(xs: seq<Arg>, r: nat, ys: seq<Arg>, k: ArgKind)
    requires RanksUpTo(xs, r) && r <= Rank(k) && AllOfKind(ys, k)
    ensures RanksUpTo(xs + ys, Rank(k))
    decreases |ys|
  {
    if ys == [] {
      assert xs + ys == xs;
      RanksUpToWeaken(xs, r, Rank(k));
    } else {
      var init := ys[..|ys| - 1];
      assert (xs + ys)[..|xs + ys| - 1] == xs + init;
      assert (xs + ys)[|xs + ys| - 1] == ys[|ys| - 1];
      OrderedAppend(xs, r, init, k);
    }
  }

  lemma {:induction false} RanksUpToWeaken(xs: seq<Arg>, r: nat, r': nat)
    requires RanksUpTo(xs, r) && r <= r'
    ensures RanksUpTo(xs, r')
  {
  }

  /** Ordered by kind, pair by pair. */
  lemma {:induction false} RanksUpToOrdered(xs: seq<Arg>, r: nat)
    requires RanksUpTo(xs, r)
    ensures RankOrdered(xs)
    ensures forall i | 0 <= i < |xs| :: Rank(xs[i].Kind()) <= r
    decreases |xs|
  {
    if xs != [] {
      var init := xs[..|xs| - 1];
      var last := xs[|xs| - 1];
      RanksUpToOrdered(init, Rank(last.Kind()));
      forall i | 0 <= i < |xs| - 1 ensures xs[i] == init[i] {}
    }
  }

  /** Four runs of arguments, each of a single kind, appended in the order of their
      kinds after arguments of no later kind, keep the order. */
  lemma OrderedFour(xs: seq<Arg>, r: nat, g1: seq<Arg>, k1: ArgKind, g2: seq<Arg>, k2: ArgKind,
                    g3: seq<Arg>, k3: ArgKind, g4: seq<Arg>, k4: ArgKind)
    requires RanksUpTo(xs, r) && r <= Rank(k1) <= Rank(k2) <= Rank(k3) <= Rank(k4)
    requires AllOfKind(g1, k1) && AllOfKind(g2, k2) && AllOfKind(g3, k3) && AllOfKind(g4, k4)
    ensures RanksUpTo(xs + g1 + g2 + g3 + g4, Rank(k4))
  {
    OrderedAppend(xs, r, g1, k1);
    OrderedAppend(xs + g1, Rank(k1), g2, k2);
    OrderedAppend(xs + g1 + g2, Rank(k2), g3, k3);
    OrderedAppend(xs + g1 + g2 + g3, Rank(k3), g4, k4);
  }

  lemma SwitchAndValueKinds()
    ensures forall k: ArgKind, on: bool {:trigger SwitchGroup(k, on)} :: AllOfKind(SwitchGroup(k, on), k)
    ensures forall k: ArgKind, v: string, d: string {:trigger ValueGroup(k, v, d)} :: AllOfKind(ValueGroup(k, v, d), k)
    ensures forall f: string {:trigger OutputGroup(f)} :: AllOfKind(OutputGroup(f), OutputFile)
  {
  }

  lemma OrderedStage1(o: Options, xs: seq<Arg>, includes: seq<Arg>, excludes: seq<Arg>)
    requires RanksUpTo(xs, Rank(PathArg))
    requires AllOfKind(includes, Include) && AllOfKind(excludes, Exclude)
    ensures RanksUpTo(xs
      + OutputGroup(o.outputFileName)
      + includes
      + excludes
      + SwitchGroup(FollowSymlinks, o.followSymlinks), Rank(FollowSymlinks))
  {
    SwitchAndValueKinds();
    OrderedFour(xs, Rank(PathArg), OutputGroup(o.outputFileName), OutputFile, includes, Include, excludes, Exclude,
      SwitchGroup(FollowSymlinks, o.followSymlinks), FollowSymlinks);
  }

  lemma OrderedStage2(o: Options, xs: seq<Arg>)
    requires RanksUpTo(xs, Rank(FollowSymlinks))
    ensures RanksUpTo(xs
      + SwitchGroup(Hidden, o.hidden)
      + SwitchGroup(NoIgnore, o.noIgnore)
      + ValueGroup(OutputFormat, o.outputFormat, DefaultOutputFormat)
      + ValueGroup(Template, o.template, ""), Rank(Template))
  {
    SwitchAndValueKinds();
    OrderedFour(xs, Rank(FollowSymlinks), SwitchGroup(Hidden, o.hidden), Hidden,
      SwitchGroup(NoIgnore, o.noIgnore), NoIgnore, ValueGroup(OutputFormat, o.outputFormat, DefaultOutputFormat), OutputFormat,
      ValueGroup(Template, o.template, ""), Template);
  }

  lemma OrderedStage3(o: Options, xs: seq<Arg>)
    requires RanksUpTo(xs, Rank(Template))
    ensures RanksUpTo(xs
      + SwitchGroup(LineNumbers, o.lineNumbers)
      + SwitchGroup(AbsolutePaths, o.absolutePaths)
      + SwitchGroup(NoCodeblock, o.noCodeblock)
      + SwitchGroup(FullDirectoryTree, o.fullDirectoryTree), Rank(FullDirectoryTree))
  {
    SwitchAndValueKinds();
    OrderedFour(xs, Rank(Template), SwitchGroup(LineNumbers, o.lineNumbers), LineNumbers,
      SwitchGroup(AbsolutePaths, o.absolutePaths), AbsolutePaths, SwitchGroup(NoCodeblock, o.noCodeblock), NoCodeblock,
      SwitchGroup(FullDirectoryTree, o.fullDirectoryTree), FullDirectoryTree);
  }

  lemma OrderedStage4(o: Options, xs: seq<Arg>, diffBranches: seq<Arg>, logBranches: seq<Arg>)
    requires RanksUpTo(xs, Rank(FullDirectoryTree))
    requires AllOfKind(diffBranches, GitDiffBranch) && AllOfKind(logBranches, GitLogBranch)
    ensures RanksUpTo(xs
      + SwitchGroup(Diff, o.diff)
      + diffBranches
      + logBranches
      + ValueGroup(Encoding, o.encoding, DefaultEncoding), Rank(Encoding))
  {
    SwitchAndValueKinds();
    OrderedFour(xs, Rank(FullDirectoryTree), SwitchGroup(Diff, o.diff), Diff, diffBranches, GitDiffBranch,
      logBranches, GitLogBranch, ValueGroup(Encoding, o.encoding, DefaultEncoding), Encoding);
  }

  lemma OrderedStage5(o: Options, xs: seq<Arg>)
    requires RanksUpTo(xs, Rank(Encoding))
    ensures RanksUpTo(xs
      + ValueGroup(TokenFormat, o.tokenFormat, DefaultTokenFormat)
      + SwitchGroup(TokenMap, o.tokenMap)
      + SwitchGroup(Quiet, o.quiet), Rank(Quiet))
  {
    SwitchAndValueKinds();
    var g17, g18, g19 := ValueGroup(TokenFormat, o.tokenFormat, DefaultTokenFormat), SwitchGroup(TokenMap, o.tokenMap),
      SwitchGroup(Quiet, o.quiet);
    OrderedFour(xs, Rank(Encoding), g17, TokenFormat, g18, TokenMap, g19, Quiet, [], Quiet);
    assert xs + g17 + g18 + g19 + [] == xs + g17 + g18 + g19;
  }

  /** The line lists its arguments in the fixed order of their kinds, whatever the options. */
  lemma LineOrdered(o: Options)
    ensures RankOrdered(ArgTokens(o))
  {
    var done := PathGroup(o.path);
    assert RanksUpTo(done, Rank(PathArg)) by {
      if done != [] {
        assert done[..0] == [];
      }
    }
    PatternKind(Include, o.includePatterns);
    PatternKind(Exclude, o.excludePatterns);
    OrderedStage1(o, done, PatternGroup(Include, o.includePatterns), PatternGroup(Exclude, o.excludePatterns));
    done := done
      + OutputGroup(o.outputFileName)
      + PatternGroup(Include, o.includePatterns)
      + PatternGroup(Exclude, o.excludePatterns)
      + SwitchGroup(FollowSymlinks, o.followSymlinks);
    OrderedStage2(o, done);
    done := done
      + SwitchGroup(Hidden, o.hidden)
      + SwitchGroup(NoIgnore, o.noIgnore)
      + ValueGroup(OutputFormat, o.outputFormat, DefaultOutputFormat)
      + ValueGroup(Template, o.template, "");
    OrderedStage3(o, done);
    done := done
      + SwitchGroup(LineNumbers, o.lineNumbers)
      + SwitchGroup(AbsolutePaths, o.absolutePaths)
      + SwitchGroup(NoCodeblock, o.noCodeblock)
      + SwitchGroup(FullDirectoryTree, o.fullDirectoryTree);
    BranchKind(GitDiffBranch, o.gitDiffBranches);
    BranchKind(GitLogBranch, o.gitLogBranches);
    OrderedStage4(o, done, BranchGroup(GitDiffBranch, o.gitDiffBranches), BranchGroup(GitLogBranch, o.gitLogBranches));
    done := done
      + SwitchGroup(Diff, o.diff)
      + BranchGroup(GitDiffBranch, o.gitDiffBranches)
      + BranchGroup(GitLogBranch, o.gitLogBranches)
      + ValueGroup(Encoding, o.encoding, DefaultEncoding);
    OrderedStage5(o, done);
    done := done
      + ValueGroup(TokenFormat, o.tokenFormat, DefaultTokenFormat)
      + SwitchGroup(TokenMap, o.tokenMap)
      + SwitchGroup(Quiet, o.quiet);
    RanksUpToOrdered(done, Rank(Quiet));
  }

  lemma PatternKind(kind: ArgKind, patterns: string)
    ensures AllOfKind(PatternGroup(kind, patterns), kind)
  {
    var g := PatternGroup(kind, patterns);
    ListOptions.PatternValues(kind, patterns);
    assert forall i | 0 <= i < |g| :: g[i] in g;
  }

  lemma BranchKind(kind: ArgKind, branches: string)
    ensures AllOfKind(BranchGroup(kind, branches), kind)
  {
  }

  /** The line starts with the path when it is given, and with `-O` otherwise. */
  lemma PathFirst(o: Options)
    ensures |ArgTokens(o)| >= 1
    ensures o.path != "" && o.path != DefaultPath ==> ArgTokens(o)[0] == Positional(o.path)
    ensures o.path == "" || o.path == DefaultPath ==> ArgTokens(o)[0] == Valued(OutputFile, o.outputFileName)
  {
    var t := ArgTokens(o);
    OutputOnLine(o, o.outputFileName);
    LineOrdered(o);
    var first := t[0];
    LineContents(o, first);
    ToggleOnLine(o, first.Kind());
    if o.path != "" && o.path != DefaultPath {
      PathOnLine(o, o.path);
      var i :| 0 <= i < |t| && t[i] == Positional(o.path);
      assert i == 0 || Rank(first.Kind()) <= Rank(t[i].Kind());
    } else {
      var i :| 0 <= i < |t| && t[i] == Valued(OutputFile, o.outputFileName);
      assert i == 0 || Rank(first.Kind()) <= Rank(t[i].Kind());
      PatternMembers(Include, o.includePatterns, first);
      PatternMembers(Exclude, o.excludePatterns, first);
      BranchMembers(GitDiffBranch, o.gitDiffBranches, first);
      BranchMembers(GitLogBranch, o.gitLogBranches, first);
    }
  }

  // ---------------------------------------------------------------------------
  // Whole lines

  /** Without a path and with every other option at its initial value, the line is
      `-O <file>`. */
  lemma OutputOnlyLine(path: string, file: string)
    requires path == "" || path == DefaultPath
    requires file != [] && !IsWhiteSpace(file[|file| - 1])
    ensures Arguments(DefaultOptions.(path := path, outputFileName := file)) == "-O " + file
  {
    var o := DefaultOptions.(path := path, outputFileName := file);
    var args := [Valued(OutputFile, file)];
    assert ArgTokens(o) == args;
    assert args[..0] == [];
    assert RenderAll(args) == " " + ("-O " + file);
    TrimmedLine(" ", "-O " + file);
  }

  /** A fresh form gives `-O code2prompt.txt`. */
  lemma DefaultLine()
    ensures Arguments(DefaultOptions) == "-O " + "code2prompt.txt"
  {
    OutputOnlyLine(DefaultPath, "code2prompt.txt");
    assert DefaultOptions.(path := DefaultPath, outputFileName := "code2prompt.txt") == DefaultOptions;
  }

  /** A repository path, an output file and `--line-numbers` give
      `<path> -O <file> --line-numbers`, as in `/repo -O out.md --line-numbers`. */
  lemma PathLine(path: string, file: string)
    requires path != "" && path != DefaultPath && !IsWhiteSpace(path[0])
    ensures Arguments(DefaultOptions.(path := path, outputFileName := file, lineNumbers := true))
      == path + " -O " + file + " --line-numbers"
  {
    PathLineTokens(path, file);
    PathLineText(path, file);
  }

  lemma PathLineText(path: string, file: string)
    requires path != "" && !IsWhiteSpace(path[0])
    ensures Trim(RenderAll([Positional(path), Valued(OutputFile, file), Switch(LineNumbers)]))
      == path + " -O " + file + " --line-numbers"
  {
    PathLineRendered(path, file);
    LineEnds(path, file);
    TrimmedLine(" ", path + " -O " + file + " --line-numbers");
  }

  lemma PathLineTokens(path: string, file: string)
    requires path != "" && path != DefaultPath
    ensures ArgTokens(DefaultOptions.(path := path, outputFileName := file, lineNumbers := true))
      == [Positional(path), Valued(OutputFile, file), Switch(LineNumbers)]
  {
  }

  lemma PathLineRendered(path: string, file: string)
    ensures RenderAll([Positional(path), Valued(OutputFile, file), Switch(LineNumbers)])
      == " " + (path + " -O " + file + " --line-numbers")
  {
    var args := [Positional(path), Valued(OutputFile, file), Switch(LineNumbers)];
    assert args[..2][..1][..0] == [] && args[..3] == args;
    var flag, switch := " -O ", " --line-numbers";
    assert Render(args[1]) == flag + file;
    assert Render(args[2]) == switch;
    assert RenderAll(args[..1]) == " " + path;
    assert RenderAll(args[..2]) == " " + path + (flag + file);
    Regroup(" ", path, flag, file, switch);
  }

  /** Proof step: regrouping the five parts of a rendering, stated on plain string parameters. */
  lemma Regroup(a: string, b: string, c: string, d: string, e: string)
    ensures a + b + (c + d) + e == a + (b + c + d + e)
  {
  }

  /** The line of `PathLine` starts with the path's first character and ends with the
      last letter of `--line-numbers`. */
  lemma LineEnds(path: string, file: string)
    requires path != [] && !IsWhiteSpace(path[0])
    ensures var line := path + " -O " + file + " --line-numbers";
      line != [] && !IsWhiteSpace(line[0]) && !IsWhiteSpace(line[|line| - 1])
  {
    var flag := " --line-numbers";
    var line := path + " -O " + file + flag;
    assert line[|line| - 1] == flag[|flag| - 1] == 's';
    assert line[0] == path[0];
  }

  /** Blanks in front of a line that starts and ends with other characters are all that
      trimming removes. */
  lemma TrimmedLine(blanks: string, line: string)
    requires IsBlank(blanks)
    requires line != [] && !IsWhiteSpace(line[0]) && !IsWhiteSpace(line[|line| - 1])
    ensures Trim(blanks + line) == line
  {
    LeadingBlanksPrefix(blanks, line);
    assert TrimStart(blanks + line) == line;
    TrimUnchanged(line);
  }
}
