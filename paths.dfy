/** The Option datatype the model uses for "a value, or nothing". */
module Wrappers {

  datatype Option<+T> = None | Some(value: T)
}

/**
 * Path normalisation: `path_check` of sass-helper.py.
 *
 * The file system's "is this path an existing regular file" test is
 * membership in `files`, the set of paths of the regular files that exist.
 */
module Paths {

  import opened Wrappers

  /** Python's `s.endswith(suffix)`. */
  predicate EndsWith(s: string, suffix: string) {
    |suffix| <= |s| && s[|s| - |suffix|..] == suffix
  }

  const Separator: string := "/"

  /** The directory path with a trailing separator: the separator is added only when missing. */
  function Normalise(path: string): (r: string)
    ensures EndsWith(r, Separator)
    ensures |path| <= |r| <= |path| + 1 && r[..|path|] == path
    ensures r == path <==> EndsWith(path, Separator)
  {
    if EndsWith(path, Separator) then path else path + Separator
  }

  /**
   * `path_check`: None stands for the process ending with exit code 1
   * because the path names an existing file; otherwise the normalised path.
   */
  function PathCheck(path: string, files: set<string>): (r: Option<string>)
    ensures r.None? <==> path in files
    ensures r.Some? ==> r.value == Normalise(path)
  {
    if path in files then None else Some(Normalise(path))
  }

  /** The contract of Normalise determines its result: no other string meets it. */
  lemma NormaliseUnique(path: string, r: string)
    requires EndsWith(r, Separator)
    requires |path| <= |r| <= |path| + 1 && r[..|path|] == path
    requires r == path <==> EndsWith(path, Separator)
    ensures r == Normalise(path)
  {
  }

  /** Normalising twice is normalising once. */
  lemma NormaliseIdempotent(path: string)
    ensures Normalise(Normalise(path)) == Normalise(path)
  {
  }

  /**
   * A path that passed the check passes it again unchanged, on a file system
   * where no file path ends with the separator (as `os.path.isfile` never
   * holds of such a path).
   */
  lemma PathCheckIdempotent(path: string, files: set<string>)
    requires PathCheck(path, files).Some?
    requires forall f :: f in files ==> !EndsWith(f, Separator)
    ensures PathCheck(PathCheck(path, files).value, files) == PathCheck(path, files)
  {
  }
}
