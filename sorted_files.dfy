/**
 * Records shared by the dataset builder and the classifier, the error
 * wrappers that stand for the library's exceptions, and the path stripping
 * `path.Split('\\').Last()` that both sides apply to every file name.
 */
module SortedFiles {

  datatype Option<+T> = None | Some(value: T)

  /** A value, or the message of the exception the library would throw. */
  datatype Result<+T> = Success(value: T) | Failure(error: string)

  /** Completion of a step that returns nothing, or the message it throws with. */
  datatype Outcome = Pass | Fail(error: string)

  /**
   * `SortedFile`: a label (a C# `null` is `None`) and a bare file name.
   * Training records carry their directory as label; inputs to be
   * classified start without one.
   */
  datatype SortedFile = SortedFile(Label: Option<string>, FileName: string)

  const Backslash: char := '\\'

  /**
   * The last `\`-separated segment of `path`: the whole path when it has no
   * backslash, the empty string when it ends with one.
   */
  function StripPath(path: string): string
    decreases |path|
  {
    if path == [] || path[|path| - 1] == Backslash then []
    else StripPath(path[..|path| - 1]) + [path[|path| - 1]]
  }

  /** The records for paths to be classified: no label, stripped names, same order. */
  function Unlabeled(paths: seq<string>): seq<SortedFile>
  {
    seq(|paths|, k requires 0 <= k < |paths| => SortedFile(None, StripPath(paths[k])))
  }

  /**
   * What is left after stripping: a backslash-free suffix of the path that
   * reaches back to a backslash or to the start of the path.
   */
  lemma {:induction false} StripPathSuffix(path: string)
    ensures |StripPath(path)| <= |path| && StripPath(path) == path[|path| - |StripPath(path)|..]
    ensures Backslash !in StripPath(path)
    ensures |StripPath(path)| < |path| ==> path[|path| - |StripPath(path)| - 1] == Backslash
    decreases |path|
  {
    if path != [] && path[|path| - 1] != Backslash {
      StripPathSuffix(path[..|path| - 1]);
    }
  }

  /** The three facts of StripPathSuffix determine the stripped name. */
  lemma StripPathUnique(path: string, name: string)
    requires |name| <= |path| && name == path[|path| - |name|..]
    requires Backslash !in name
    requires |name| < |path| ==> path[|path| - |name| - 1] == Backslash
    ensures StripPath(path) == name
  {
    StripPathSuffix(path);
  }

  /** Stripping a directory prefix gives back the bare name that was joined to it. */
  lemma StripPathOfJoined(dir: string, name: string)
    requires Backslash !in name
    ensures StripPath(dir + [Backslash] + name) == name
  {
    var path := dir + [Backslash] + name;
    assert path[|path| - |name|..] == name;
    StripPathUnique(path, name);
  }

  /** Stripping is idempotent: a stripped name is left as it is. */
  lemma StripPathIdempotent(path: string)
    ensures StripPath(StripPath(path)) == StripPath(path)
  {
    var name := StripPath(path);
    StripPathSuffix(path);
    assert name[|name| - |name|..] == name;
    StripPathUnique(name, name);
  }
}
