/** The operating-system services the core calls, on Windows (the bundled tool is
    `code2prompt.exe`): `Environment.NewLine`, `Path.Combine`, `Path.GetFileName`,
    and a file system reduced to what `File.Exists` and `File.ReadAllText` observe. */
module Platform {

  /** `Environment.NewLine` on Windows. */
  const NewLine: string := "\r\n"

  /** `Path.DirectorySeparatorChar` on Windows. */
  const DirectorySeparator: char := '\\'

  /** `Path.AltDirectorySeparatorChar`. */
  const AltDirectorySeparator: char := '/'

  predicate IsDirectorySeparator(c: char) {
    c == DirectorySeparator || c == AltDirectorySeparator
  }

  /** What a read of one path observes: the text of the file, or the message of the
      exception `File.ReadAllText` throws (permissions, sharing violation, bad encoding). */
  datatype FileEntry = Contents(text: string) | ReadFailure(message: string)

  /** A snapshot of the file system: a path is present iff `File.Exists` holds for it. */
  type FileSystem = map<string, FileEntry>

  /** `Path.Combine(first, second)` for a `second` that is relative and does not start
      with a separator (the only kind the core passes): a separator is inserted unless
      `first` is empty or already ends with one. */
  function Combine(first: string, second: string): (r: string)
    ensures first == [] ==> r == second
    ensures first != [] ==> |r| >= |first| + |second| && r[..|first|] == first && r[|r| - |second|..] == second
    ensures first != [] ==> (|r| == |first| + |second| <==> IsDirectorySeparator(first[|first| - 1]))
  {
    if first == [] then second
    else if IsDirectorySeparator(first[|first| - 1]) then first + second
    else first + [DirectorySeparator] + second
  }

  /** `Path.GetFileName`: what follows the last directory separator (the whole path when
      there is none). */
  function GetFileName(path: string): string {
    if path == [] || IsDirectorySeparator(path[|path| - 1]) then []
    else GetFileName(path[..|path| - 1]) + [path[|path| - 1]]
  }

  /** The file name is the last component of the path: a suffix holding no directory
      separator, with a separator right before it whenever it is shorter than the path. */
  lemma {:induction false} FileNameIsLastComponent(path: string)
    ensures var r := GetFileName(path);
      && |r| <= |path| && r == path[|path| - |r|..]
      && (forall i | 0 <= i < |r| :: !IsDirectorySeparator(r[i]))
      && (|r| < |path| ==> IsDirectorySeparator(path[|path| - |r| - 1]))
    decreases |path|
  {
    if path != [] && !IsDirectorySeparator(path[|path| - 1]) {
      FileNameIsLastComponent(path[..|path| - 1]);
      NameStep(path, GetFileName(path[..|path| - 1]));
    }
  }

  /** A last character that is not a separator extends the name of the rest of the path. */
  lemma NameStep(path: string, r0: string)
    requires path != [] && !IsDirectorySeparator(path[|path| - 1]) && |r0| < |path|
    requires r0 == path[..|path| - 1][|path| - 1 - |r0|..]
    requires forall i | 0 <= i < |r0| :: !IsDirectorySeparator(r0[i])
    requires |r0| < |path| - 1 ==> IsDirectorySeparator(path[|path| - |r0| - 2])
    ensures var r := r0 + [path[|path| - 1]];
      && r == path[|path| - |r|..]
      && (forall i | 0 <= i < |r| :: !IsDirectorySeparator(r[i]))
      && (|r| < |path| ==> IsDirectorySeparator(path[|path| - |r| - 1]))
  {
    assert r0 == path[|path| - 1 - |r0|..|path| - 1];
  }
}
