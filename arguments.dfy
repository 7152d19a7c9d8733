/**
 * The `sys.argv` block at the bottom of sass-helper.py, as a pure function
 * from the argument vector (program name first) to the action it selects.
 */
module Arguments {

  /** What one run of the script does. */
  datatype Action =
    | NoAction                                    // no user argument: no branch fires
    | Help                                        // print usage, exit 0
    | Unsupported                                 // print a notice, exit 1
    | CleanDir(path: string)                      // clean(path), then exit 0
    | BuildDir(path: string, thenClean: bool)     // build(path), clean(path) if asked, then exit 0
    | WatchDir(path: string)                      // watch(path), then exit 0

  predicate IsHelpFlag(arg: string) { arg == "--help" || arg == "-h" }
  predicate IsCleanFlag(arg: string) { arg == "--clean" || arg == "-c" }
  predicate IsBuildFlag(arg: string) { arg == "--build" || arg == "-b" }
  predicate IsWatchFlag(arg: string) { arg == "--watch" || arg == "-w" }

  /** A flag that selects a mode taking a directory. */
  predicate IsModeFlag(arg: string) { IsCleanFlag(arg) || IsBuildFlag(arg) || IsWatchFlag(arg) }

  function Dispatch(argv: seq<string>): (a: Action)
    ensures a.NoAction? <==> |argv| < 2
    ensures a.Help? <==> |argv| == 2 && IsHelpFlag(argv[1])
    ensures a.Unsupported? <==> (|argv| == 2 && !IsHelpFlag(argv[1])) || (|argv| >= 3 && !IsModeFlag(argv[1]))
    ensures a.CleanDir? || a.BuildDir? || a.WatchDir? ==> |argv| >= 3 && a.path == argv[2]
    ensures a.CleanDir? <==> |argv| >= 3 && IsCleanFlag(argv[1])
    ensures a.BuildDir? <==> |argv| >= 3 && IsBuildFlag(argv[1])
    ensures a.WatchDir? <==> |argv| >= 3 && IsWatchFlag(argv[1])
    ensures a.BuildDir? ==> (a.thenClean <==> |argv| == 4 && IsCleanFlag(argv[3]))
  {
    if |argv| == 2 then
      if IsHelpFlag(argv[1]) then Help else Unsupported
    else if |argv| >= 3 then
      if IsCleanFlag(argv[1]) then CleanDir(argv[2])
      else if IsBuildFlag(argv[1]) then BuildDir(argv[2], |argv| == 4 && IsCleanFlag(argv[3]))
      else if IsWatchFlag(argv[1]) then WatchDir(argv[2])
      else Unsupported
    else NoAction
  }

  /** A canonical command line, without the program name, that asks for `a`. */
  function Render(a: Action): seq<string> {
    match a
    case NoAction => []
    case Help => ["-h"]
    case Unsupported => ["--unsupported"]
    case CleanDir(path) => ["-c", path]
    case BuildDir(path, thenClean) => if thenClean then ["-b", path, "-c"] else ["-b", path]
    case WatchDir(path) => ["-w", path]
  }

  /** Every action is reachable: dispatching its rendering gives it back. */
  lemma DispatchRender(program: string, a: Action)
    ensures Dispatch([program] + Render(a)) == a
  {
  }

  /** The long form of a flag, with the short form's meaning. */
  function LongForm(arg: string): (r: string)
    ensures IsHelpFlag(r) == IsHelpFlag(arg) && IsCleanFlag(r) == IsCleanFlag(arg)
    ensures IsBuildFlag(r) == IsBuildFlag(arg) && IsWatchFlag(r) == IsWatchFlag(arg)
  {
    match arg
    case "-h" => "--help"
    case "-c" => "--clean"
    case "-b" => "--build"
    case "-w" => "--watch"
    case _ => arg
  }

  /** Short and long flags are interchangeable, in the first and in the trailing position. */
  lemma ShortAndLongFlagsAgree(argv: seq<string>, i: nat)
    requires i == 1 || i == 3
    requires i < |argv|
    ensures Dispatch(argv[i := LongForm(argv[i])]) == Dispatch(argv)
  {
  }

  /**
   * Arguments after the directory never change clean or watch; for build a
   * trailing clean flag counts only as the third and last user argument.
   */
  lemma TrailingArguments(argv: seq<string>, extra: seq<string>)
    requires |argv| >= 3
    ensures IsCleanFlag(argv[1]) || IsWatchFlag(argv[1]) ==> Dispatch(argv + extra) == Dispatch(argv)
    ensures IsBuildFlag(argv[1]) && |argv| + |extra| > 4 ==> Dispatch(argv + extra) == BuildDir(argv[2], false)
  {
  }
}
