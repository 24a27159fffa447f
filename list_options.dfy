/** The two options that hold lists: the include/exclude pattern lists, split on newline,
    carriage return and comma into one `-i`/`-e` argument per non-blank segment, and
    the git branch pairs `a,b`, passed on only when they hold exactly one comma. */
module ListOptions {
  import opened Text
  import opened ArgumentBuilder

  // ---------------------------------------------------------------------------
  // Pattern lists

  /** Segments contribute independently: the arguments of two runs of segments are the
      arguments of the first followed by those of the second (so order is kept and a
      segment given twice is passed twice). */
  lemma {:induction false} PatternArgsAppend(kind: ArgKind, xs: seq<string>, ys: seq<string>)
    ensures PatternArgs(kind, xs + ys) == PatternArgs(kind, xs) + PatternArgs(kind, ys)
    decreases |ys|
  {
    if ys == [] {
      assert xs + ys == xs;
    } else {
      var init := ys[..|ys| - 1];
      assert (xs + ys)[..|xs + ys| - 1] == xs + init;
      assert (xs + ys)[|xs + ys| - 1] == ys[|ys| - 1];
      PatternArgsAppend(kind, xs, init);
    }
  }

  /** Dropping the empty entries before the loop changes nothing: an empty segment is
      white space only and is skipped by the loop anyway. */
  lemma {:induction false} PatternArgsSkipEmpty(kind: ArgKind, segments: seq<string>)
    ensures PatternArgs(kind, NonEmpty(segments)) == PatternArgs(kind, segments)
    decreases |segments|
  {
    if segments != [] {
      var init, last := segments[..|segments| - 1], segments[|segments| - 1];
      PatternArgsSkipEmpty(kind, init);
      if last == [] {
        assert NonEmpty(segments) == NonEmpty(init);
      } else {
        var kept := NonEmpty(init) + [last];
        assert NonEmpty(segments) == kept;
        assert kept[..|kept| - 1] == NonEmpty(init);
      }
    }
  }

  /** The arguments of a pattern list are those of every piece of its plain split,
      empty text included. */
  lemma PatternGroupSplit(kind: ArgKind, patterns: string)
    ensures PatternGroup(kind, patterns) == PatternArgs(kind, Split(patterns, PatternSeparators))
  {
    if patterns == "" {
      var pieces: seq<string> := [[]];
      assert Split(patterns, PatternSeparators) == pieces;
      assert pieces[..0] == [];
    } else {
      PatternArgsSkipEmpty(kind, Split(patterns, PatternSeparators));
    }
  }

  /** Every argument made from segments without separators carries a value that is not
      empty, holds no separator and neither starts nor ends with white space. */
  lemma {:induction false} PatternArgsValues(kind: ArgKind, segments: seq<string>)
    requires forall k | 0 <= k < |segments| :: Avoids(segments[k], PatternSeparators)
    ensures forall a | a in PatternArgs(kind, segments) ::
      && a.Valued? && a.flag == kind && a.value != []
      && Avoids(a.value, PatternSeparators)
      && !IsWhiteSpace(a.value[0]) && !IsWhiteSpace(a.value[|a.value| - 1])
    decreases |segments|
  {
    if segments != [] {
      var last := segments[|segments| - 1];
      PatternArgsValues(kind, segments[..|segments| - 1]);
      TrimAvoids(last, PatternSeparators);
    }
  }

  /** Each `-i`/`-e` argument of a pattern list is a flag of its own kind with a value
      that is not empty, holds no newline, carriage return or comma, and has no white
      space at either end. */
  lemma PatternValues(kind: ArgKind, patterns: string)
    ensures forall a | a in PatternGroup(kind, patterns) ::
      && a.Valued? && a.flag == kind && a.value != []
      && Avoids(a.value, PatternSeparators)
      && !IsWhiteSpace(a.value[0]) && !IsWhiteSpace(a.value[|a.value| - 1])
  {
    var pieces := Split(patterns, PatternSeparators);
    PatternGroupSplit(kind, patterns);
    SplitPiecesFree(patterns, PatternSeparators);
    assert forall k | 0 <= k < |pieces| :: Avoids(pieces[k], PatternSeparators);
    PatternArgsValues(kind, pieces);
  }

  /** A list given as segments joined by a separator yields the arguments of the first
      segment, then those of the rest. */
  lemma PatternListJoin(kind: ArgKind, first: string, c: char, rest: string)
    requires Avoids(first, PatternSeparators) && c in PatternSeparators
    ensures PatternGroup(kind, first + [c] + rest) == PatternArg(kind, first) + PatternGroup(kind, rest)
  {
    PatternGroupSplit(kind, first + [c] + rest);
    PatternGroupSplit(kind, rest);
    SplitAtFirst(first, c, rest, PatternSeparators);
    PatternArgsCons(kind, first, Split(rest, PatternSeparators));
  }

  /** A segment in front contributes its own argument in front. */
  lemma PatternArgsCons(kind: ArgKind, first: string, segments: seq<string>)
    ensures PatternArgs(kind, [first] + segments) == PatternArg(kind, first) + PatternArgs(kind, segments)
  {
    PatternArgsAppend(kind, [first], segments);
    PatternArgsOne(kind, first);
  }

  lemma PatternArgsOne(kind: ArgKind, segment: string)
    ensures PatternArgs(kind, [segment]) == PatternArg(kind, segment)
  {
    assert [segment][..0] == [];
  }

  /** A single segment yields one trimmed argument, or none when it is white space only. */
  lemma PatternListSingle(kind: ArgKind, segment: string)
    requires Avoids(segment, PatternSeparators)
    ensures PatternGroup(kind, segment) == PatternArg(kind, segment)
  {
    PatternGroupSplit(kind, segment);
    SplitAvoiding(segment, PatternSeparators);
    assert [segment][..0] == [];
  }

  // ---------------------------------------------------------------------------
  // Branch pairs

  /** A branch pair is passed on exactly when the text holds one comma. */
  lemma BranchOnlyWithOneComma(kind: ArgKind, branches: string)
    ensures BranchGroup(kind, branches) != [] <==> |SeparatorsIn(branches, {','})| == 1
  {
    if branches == "" {
      assert SeparatorsIn(branches, {','}) == [];
    }
  }

  /** A text with one comma is the two halves around it. */
  lemma BranchHalves(branches: string)
    requires |SeparatorsIn(branches, {','})| == 1
    ensures var pieces := Split(branches, {','});
      && branches == pieces[0] + "," + pieces[1]
      && Avoids(pieces[0], {','}) && Avoids(pieces[1], {','})
  {
    var pieces := Split(branches, {','});
    var commas := SeparatorsIn(branches, {','});
    SplitRejoin(branches, {','});
    SplitPiecesFree(branches, {','});
    assert commas[0] == ',';
    assert Rejoin(pieces[1..], commas[1..]) == pieces[1];
  }

  /** The value of a pair `p,q` is `p` and `q` trimmed, joined by a comma; halves that
      are empty or white space only are passed on as empty. */
  lemma BranchValue(kind: ArgKind, p: string, q: string)
    requires Avoids(p, {','}) && Avoids(q, {','})
    ensures BranchGroup(kind, p + "," + q) == [Valued(kind, Trim(p) + "," + Trim(q))]
  {
    assert p + "," + q == p + [','] + q;
    SplitAtFirst(p, ',', q, {','});
    SplitAvoiding(q, {','});
  }

  /** A single branch name followed by a comma, as in `main,`, is passed on unchanged. */
  lemma BranchTrailingComma(kind: ArgKind, name: string)
    requires Avoids(name, {','})
    requires name == [] || (!IsWhiteSpace(name[0]) && !IsWhiteSpace(name[|name| - 1]))
    ensures BranchGroup(kind, name + ",") == [Valued(kind, name + ",")]
  {
    BranchValue(kind, name, "");
    TrimUnchanged(name);
    TrimUnchanged("");
    assert name + "," + "" == name + ",";
  }

  /** A list `x,y` newline newline `x` of trimmed patterns gives `-i x -i y -i x`: the
      empty line is skipped and the repeated pattern is passed twice, in place. */
  lemma PatternDuplicates(kind: ArgKind, x: string, y: string)
    requires Avoids(x, PatternSeparators) && x != [] && !IsWhiteSpace(x[0]) && !IsWhiteSpace(x[|x| - 1])
    requires Avoids(y, PatternSeparators) && y != [] && !IsWhiteSpace(y[0]) && !IsWhiteSpace(y[|y| - 1])
    ensures PatternGroup(kind, x + "," + y + "\n\n" + x) == [Valued(kind, x), Valued(kind, y), Valued(kind, x)]
  {
    var tail2 := [] + ['\n'] + x;
    var tail1 := y + ['\n'] + tail2;
    DuplicatesShape(x, y);
    PatternListJoin(kind, x, ',', tail1);
    PatternListJoin(kind, y, '\n', tail2);
    PatternListJoin(kind, [], '\n', x);
    PatternListSingle(kind, x);
    TrimmedSegment(kind, x);
    TrimmedSegment(kind, y);
    EmptySegment(kind);
  }

  /** Proof step: an empty segment gives no argument (kept as a lemma so the solver
      meets the fact without unfolding the trimming in a larger context). */
  lemma EmptySegment(kind: ArgKind)
    ensures PatternArg(kind, []) == []
  {
  }

  /** Proof step: the duplicated pattern text regrouped as the successive joins that
      `PatternDuplicates` takes apart. */
  lemma DuplicatesShape(x: string, y: string)
    ensures x + "," + y + "\n\n" + x == x + [','] + (y + ['\n'] + ([] + ['\n'] + x))
  {
  }

  /** A segment without white space at its ends is passed on as it is. */
  lemma TrimmedSegment(kind: ArgKind, segment: string)
    requires segment != [] && !IsWhiteSpace(segment[0]) && !IsWhiteSpace(segment[|segment| - 1])
    ensures PatternArg(kind, segment) == [Valued(kind, segment)]
  {
    TrimUnchanged(segment);
  }
}
