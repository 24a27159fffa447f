/** The parts of the .NET string library the core relies on: `char.IsWhiteSpace`,
    `string.IsNullOrWhiteSpace`, `Trim`/`TrimStart`/`TrimEnd` and `Split` over a set
    of separator characters (with and without `StringSplitOptions.RemoveEmptyEntries`). */
module Text {

  /** `char.IsWhiteSpace`: U+0009..U+000D, U+0020, U+0085, U+00A0 and the
      Unicode categories Zs, Zl and Zp. */
  predicate IsWhiteSpace(c: char) {
    || c == ' '
    || ('\t' <= c <= '\r')
    || c == '\U{0085}'
    || c == '\U{00A0}'
    || c == '\U{1680}'
    || ('\U{2000}' <= c <= '\U{200A}')
    || c == '\U{2028}'
    || c == '\U{2029}'
    || c == '\U{202F}'
    || c == '\U{205F}'
    || c == '\U{3000}'
  }

  /** `string.IsNullOrWhiteSpace` for a non-null string: every character is white space
      (so the empty string qualifies). */
  predicate IsBlank(s: string) {
    forall i | 0 <= i < |s| :: IsWhiteSpace(s[i])
  }

  /** The number of white-space characters at the start of `s`. */
  function LeadingBlanks(s: string): (n: nat)
    ensures n <= |s|
  {
    if s != [] && IsWhiteSpace(s[0]) then 1 + LeadingBlanks(s[1..]) else 0
  }

  /** The number of white-space characters at the end of `s`. */
  function TrailingBlanks(s: string): (n: nat)
    ensures n <= |s|
  {
    if s != [] && IsWhiteSpace(s[|s| - 1]) then 1 + TrailingBlanks(s[..|s| - 1]) else 0
  }

  /** `TrimStart()`: drops the longest all-white-space prefix. */
  function TrimStart(s: string): string {
    s[LeadingBlanks(s)..]
  }

  /** `TrimEnd()`: drops the longest all-white-space suffix. */
  function TrimEnd(s: string): string {
    s[..|s| - TrailingBlanks(s)]
  }

  /** `Trim()`: the slice of `s` left after dropping white space at both ends. */
  function Trim(s: string): (r: string)
    ensures r == [] || (!IsWhiteSpace(r[0]) && !IsWhiteSpace(r[|r| - 1]))
    ensures r == [] <==> IsBlank(s)
  {
    var t := TrimStart(s);
    var r := TrimEnd(t);
    LeadingBlanksSpec(s);
    TrailingBlanksSpec(t);
    TrimSlices(s, t, r, |s| - |t|);
    r
  }

  /** A string with no white space at either end is left as it is; in particular
      trimming twice is trimming once. */
  lemma TrimUnchanged(s: string)
    requires s == [] || (!IsWhiteSpace(s[0]) && !IsWhiteSpace(s[|s| - 1]))
    ensures Trim(s) == s
    ensures Trim(Trim(s)) == Trim(s)
  {
    assert LeadingBlanks(s) == 0;
    assert TrimStart(s) == s;
    assert TrailingBlanks(s) == 0;
  }

  /** `LeadingBlanks` counts exactly the white space before the first other character. */
  lemma {:induction false} LeadingBlanksSpec(s: string)
    ensures forall i | 0 <= i < LeadingBlanks(s) :: IsWhiteSpace(s[i])
    ensures LeadingBlanks(s) == |s| || !IsWhiteSpace(s[LeadingBlanks(s)])
  {
    if s != [] && IsWhiteSpace(s[0]) {
      LeadingBlanksSpec(s[1..]);
      forall i | 1 <= i < LeadingBlanks(s) ensures IsWhiteSpace(s[i]) {
        assert s[i] == s[1..][i - 1];
      }
    }
  }

  /** `TrailingBlanks` counts exactly the white space after the last other character. */
  lemma {:induction false} TrailingBlanksSpec(s: string)
    ensures forall i | |s| - TrailingBlanks(s) <= i < |s| :: IsWhiteSpace(s[i])
    ensures TrailingBlanks(s) == |s| || !IsWhiteSpace(s[|s| - TrailingBlanks(s) - 1])
  {
    if s != [] && IsWhiteSpace(s[|s| - 1]) {
      TrailingBlanksSpec(s[..|s| - 1]);
    }
  }

  /** `Trim` keeps a contiguous slice of its input and removes only white space:
      `s` is a blank prefix, then `Trim(s)`, then a blank suffix. */
  lemma TrimIsSlice(s: string)
    ensures var n, r := LeadingBlanks(s), Trim(s);
      && n + |r| <= |s|
      && r == s[n..n + |r|]
      && IsBlank(s[..n])
      && IsBlank(s[n + |r|..])
  {
    var t := TrimStart(s);
    var r := TrimEnd(t);
    var n := LeadingBlanks(s);
    LeadingBlanksSpec(s);
    TrailingBlanksSpec(t);
    assert Trim(s) == r == t[..|r|];
    BlankSlice(s, 0, n);
    assert s[..n] == s[0..n];
    BlankTail(s, t, n, |r|);
  }

  /** White space after position `m` of a suffix `t` of `s` is white space of `s`. */
  lemma BlankTail(s: string, t: string, n: nat, m: nat)
    requires n <= |s| && t == s[n..] && m <= |t|
    requires forall k | m <= k < |t| :: IsWhiteSpace(t[k])
    ensures IsBlank(s[n + m..])
  {
  }

  /** A stretch of white-space characters is blank. */
  lemma BlankSlice(s: string, lo: int, hi: int)
    requires 0 <= lo <= hi <= |s|
    requires forall k | lo <= k < hi :: IsWhiteSpace(s[k])
    ensures IsBlank(s[lo..hi])
  {
    forall i | 0 <= i < hi - lo ensures IsWhiteSpace(s[lo..hi][i]) {
      assert s[lo..hi][i] == s[lo + i];
    }
  }

  /** The bookkeeping behind `Trim`: after `TrimStart` and then `TrimEnd`, the ends are
      not white space, and nothing is left exactly when `s` was all white space. */
  lemma TrimSlices(s: string, t: string, r: string, i: int)
    requires 0 <= i <= |s| && t == s[i..] && (t == [] || !IsWhiteSpace(t[0]))
    requires forall k | 0 <= k < i :: IsWhiteSpace(s[k])
    requires |r| <= |t| && r == t[..|r|] && (r == [] || !IsWhiteSpace(r[|r| - 1]))
    requires forall k | |r| <= k < |t| :: IsWhiteSpace(t[k])
    ensures r == [] || (!IsWhiteSpace(r[0]) && !IsWhiteSpace(r[|r| - 1]))
    ensures r == [] <==> IsBlank(s)
  {
    if r != [] {
      assert r[0] == t[0] == s[i];
    } else {
      assert t == [];
      assert |s| == i;
    }
  }

  /** No character of `s` is one of `cs`. */
  predicate Avoids(s: string, cs: set<char>) {
    forall i | 0 <= i < |s| :: s[i] !in cs
  }

  /** Trimming adds no character: what `s` avoids, `Trim(s)` avoids too. */
  lemma TrimAvoids(s: string, cs: set<char>)
    requires Avoids(s, cs)
    ensures Avoids(Trim(s), cs)
  {
    TrimIsSlice(s);
    var n, r := LeadingBlanks(s), Trim(s);
    forall i | 0 <= i < |r| ensures r[i] !in cs {
      assert r[i] == s[n + i];
    }
  }

  /** White space in front of `s` adds to what `TrimStart` removes. */
  lemma {:induction false} LeadingBlanksPrefix(blanks: string, s: string)
    requires IsBlank(blanks)
    ensures LeadingBlanks(blanks + s) == |blanks| + LeadingBlanks(s)
    decreases |blanks|
  {
    if blanks == [] {
      assert blanks + s == s;
    } else {
      assert (blanks + s)[0] == blanks[0];
      assert (blanks + s)[1..] == blanks[1..] + s;
      assert IsBlank(blanks[1..]) by {
        forall i | 0 <= i < |blanks| - 1 ensures IsWhiteSpace(blanks[1..][i]) {
          assert blanks[1..][i] == blanks[i + 1];
        }
      }
      LeadingBlanksPrefix(blanks[1..], s);
    }
  }

  /** The separator characters of `s`, in order. */
  function SeparatorsIn(s: string, separators: set<char>): (r: string)
    ensures forall i | 0 <= i < |r| :: r[i] in separators
  {
    if s == [] then []
    else (if s[0] in separators then [s[0]] else []) + SeparatorsIn(s[1..], separators)
  }

  /** `s.Split(separators)`: the pieces between separators, empty pieces kept.
      There is always one more piece than there are separators. */
  function Split(s: string, separators: set<char>): (pieces: seq<string>)
    ensures |pieces| == |SeparatorsIn(s, separators)| + 1
    decreases |s|
  {
    if s == [] then [[]]
    else
      var rest := Split(s[1..], separators);
      if s[0] in separators then [[]] + rest
      else [[s[0]] + rest[0]] + rest[1..]
  }

  /** No piece of a split holds a separator. */
  lemma {:induction false} SplitPiecesFree(s: string, separators: set<char>)
    ensures forall k, i | 0 <= k < |Split(s, separators)| && 0 <= i < |Split(s, separators)[k]| ::
      Split(s, separators)[k][i] !in separators
    decreases |s|
  {
    if s != [] {
      SplitPiecesFree(s[1..], separators);
      var rest := Split(s[1..], separators);
      var pieces := Split(s, separators);
      assert s[0] !in separators ==> pieces == [[s[0]] + rest[0]] + rest[1..];
      forall k, i | 0 <= k < |pieces| && 0 <= i < |pieces[k]| ensures pieces[k][i] !in separators {
        if s[0] in separators {
          assert pieces == [[]] + rest;
          assert pieces[k][i] == rest[k - 1][i];
        } else if k == 0 && i == 0 {
          assert pieces[k][i] == s[0];
        } else if k == 0 {
          assert pieces[k][i] == rest[0][i - 1];
        } else {
          assert pieces[k][i] == rest[k][i];
        }
      }
    }
  }

  /** A string without separators is a single piece. */
  lemma {:induction false} SplitAvoiding(s: string, separators: set<char>)
    requires Avoids(s, separators)
    ensures Split(s, separators) == [s]
    decreases |s|
  {
    if s != [] {
      assert Avoids(s[1..], separators) by {
        forall i | 0 <= i < |s| - 1 ensures s[1..][i] !in separators {
          assert s[1..][i] == s[i + 1];
        }
      }
      SplitAvoiding(s[1..], separators);
      assert [s[0]] + s[1..] == s;
    }
  }

  /** The first separator ends the first piece; the rest is split on its own. */
  lemma {:induction false} SplitAtFirst(p: string, c: char, q: string, separators: set<char>)
    requires Avoids(p, separators) && c in separators
    ensures Split(p + [c] + q, separators) == [p] + Split(q, separators)
    decreases |p|
  {
    var s := p + [c] + q;
    if p == [] {
      assert s[1..] == q;
    } else {
      assert s[0] == p[0] && s[1..] == p[1..] + [c] + q;
      assert Avoids(p[1..], separators) by {
        forall i | 0 <= i < |p| - 1 ensures p[1..][i] !in separators {
          assert p[1..][i] == p[i + 1];
        }
      }
      SplitAtFirst(p[1..], c, q, separators);
      assert [p[0]] + p[1..] == p;
    }
  }

  /** Puts the pieces back together with the given separators between them. */
  function Rejoin(pieces: seq<string>, delimiters: string): string
    requires |pieces| == |delimiters| + 1
    decreases |delimiters|
  {
    if delimiters == [] then pieces[0]
    else pieces[0] + [delimiters[0]] + Rejoin(pieces[1..], delimiters[1..])
  }

  /** Splitting loses nothing: rejoining the pieces with the separators that were
      consumed gives back the input. */
  lemma {:induction false} SplitRejoin(s: string, separators: set<char>)
    ensures Rejoin(Split(s, separators), SeparatorsIn(s, separators)) == s
    decreases |s|
  {
    if s != [] {
      var rest := Split(s[1..], separators);
      var seps := SeparatorsIn(s[1..], separators);
      SplitRejoin(s[1..], separators);
      assert s == [s[0]] + s[1..];
      if s[0] in separators {
        assert SeparatorsIn(s, separators) == [s[0]] + seps;
        assert Split(s, separators) == [[]] + rest;
        assert ([[]] + rest)[1..] == rest;
      } else {
        assert SeparatorsIn(s, separators) == seps;
        var pieces := [[s[0]] + rest[0]] + rest[1..];
        assert Split(s, separators) == pieces;
        if seps == [] {
          assert Rejoin(pieces, seps) == [s[0]] + rest[0];
        } else {
          assert pieces[1..] == rest[1..];
          assert Rejoin(rest, seps) == rest[0] + [seps[0]] + Rejoin(rest[1..], seps[1..]);
        }
      }
    }
  }

  /** The non-empty pieces, in order: what `StringSplitOptions.RemoveEmptyEntries` keeps. */
  function NonEmpty(pieces: seq<string>): seq<string> {
    if pieces == [] then []
    else
      var init := pieces[..|pieces| - 1];
      var last := pieces[|pieces| - 1];
      assert pieces == init + [last];
      NonEmpty(init) + (if last == [] then [] else [last])
  }

  /** `s.Split(separators, StringSplitOptions.RemoveEmptyEntries)`. */
  function SplitRemoveEmpty(s: string, separators: set<char>): seq<string> {
    NonEmpty(Split(s, separators))
  }
}
