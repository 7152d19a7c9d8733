/**
 * One run of sass-helper.py, from the start-up check to the exit code.
 *
 * The world outside the script becomes parameters: whether `sass` is on the
 * search path, the files the compiler writes while it runs, and what
 * `os.listdir` returns when `clean` lists the directory. The compiler's own
 * exit status is ignored by the script, so it is not modelled.
 */
module Script {

  import opened Wrappers
  import opened Paths
  import opened Commands
  import opened Cleaning
  import opened Arguments

  /** Exit code, commands handed to sass in order, deletion reports, files left. */
  datatype RunResult = RunResult(code: int, commands: seq<string>, report: seq<Report>, existing: set<string>)

  /** The exit code once `clean` is over: the dispatcher calls `exit()` after a returning clean. */
  function ExitCode(status: Status): int {
    match status
    case Returned => 0
    case Exited(c) => c
    case Raised => 1
  }

  /** `clean(path)` on `files`, seen from the command line. */
  function CleanRun(path: string, listing: Option<seq<string>>, files: set<string>, commands: seq<string>): RunResult {
    var o := CleanOutcome(path, listing, files);
    RunResult(ExitCode(o.status), commands, o.report, o.remaining)
  }

  /** Everything one run of the script does. */
  function RunOutcome(sassOnPath: bool, argv: seq<string>, existing: set<string>,
                   written: set<string>, listing: Option<seq<string>>): (r: RunResult)
    ensures r.code == 0 || r.code == 1
    ensures !sassOnPath ==> r == RunResult(1, [], [], existing)
    ensures |r.commands| <= 1
    // help, or no user argument: exit 0, nothing else happens
    ensures sassOnPath && (Dispatch(argv).Help? || Dispatch(argv).NoAction?)
      ==> r == RunResult(0, [], [], existing)
    // an unsupported command line (also a mode flag without a directory): exit 1, nothing else happens
    ensures sassOnPath && Dispatch(argv).Unsupported? ==> r == RunResult(1, [], [], existing)
    // clean exits 0 exactly when the target is not a file and the listing succeeds
    ensures sassOnPath && Dispatch(argv).CleanDir?
      ==> r.commands == [] && (r.code == 0 <==> Dispatch(argv).path !in existing && listing.Some?)
    // build without clean: exit 0, one build command, the compiler's files added
    ensures sassOnPath && Dispatch(argv).BuildDir? && !Dispatch(argv).thenClean && Dispatch(argv).path !in existing
      ==> r == RunResult(0, [BuildCommand(Normalise(Dispatch(argv).path))], [], existing + written)
    // build then clean: one build command; exit 0 exactly when clean's check and listing succeed
    ensures sassOnPath && Dispatch(argv).BuildDir? && Dispatch(argv).thenClean && Dispatch(argv).path !in existing
      ==> r.commands == [BuildCommand(Normalise(Dispatch(argv).path))]
          && (r.code == 0 <==> Dispatch(argv).path !in existing + written && listing.Some?)
    // watch: exit 0, one watch command, the compiler's files added
    ensures sassOnPath && Dispatch(argv).WatchDir? && Dispatch(argv).path !in existing
      ==> r == RunResult(0, [WatchCommand(Normalise(Dispatch(argv).path))], [], existing + written)
  {
    if !sassOnPath then RunResult(1, [], [], existing)
    else
      match Dispatch(argv)
      case NoAction => RunResult(0, [], [], existing)
      case Help => RunResult(0, [], [], existing)
      case Unsupported => RunResult(1, [], [], existing)
      case CleanDir(path) => CleanRun(path, listing, existing, [])
      case BuildDir(path, thenClean) =>
        (match PathCheck(path, existing)
         case None => RunResult(1, [], [], existing)
         case Some(dir) =>
           if thenClean then CleanRun(path, listing, existing + written, [BuildCommand(dir)])
           else RunResult(0, [BuildCommand(dir)], [], existing + written))
      case WatchDir(path) =>
        (match PathCheck(path, existing)
         case None => RunResult(1, [], [], existing)
         case Some(dir) => RunResult(0, [WatchCommand(dir)], [], existing + written))
  }

  /** The script's top level: the sanity check, then the `sys.argv` dispatch. */
  method Run(fs: FileSystem, sassOnPath: bool, argv: seq<string>, written: set<string>, listing: Option<seq<string>>)
    returns (code: int, commands: seq<string>, report: seq<Report>)
    modifies fs
    ensures RunOutcome(sassOnPath, argv, old(fs.existing), written, listing) == RunResult(code, commands, report, fs.existing)
  {
    commands, report := [], [];
    if !sassOnPath {
      return 1, commands, report;
    }
    var action := Dispatch(argv);
    match action
    case NoAction =>
      code := 0;
    case Help =>
      code := 0;
    case Unsupported =>
      code := 1;
    case CleanDir(path) =>
      var status;
      status, report := fs.Clean(path, listing);
      code := ExitCode(status);
    case BuildDir(path, thenClean) =>
      var checked := PathCheck(path, fs.existing);
      if checked.None? {
        return 1, commands, report;
      }
      commands := [BuildCommand(checked.value)];
      fs.existing := fs.existing + written;
      code := 0;
      if thenClean {
        var status;
        status, report := fs.Clean(path, listing);
        code := ExitCode(status);
      }
    case WatchDir(path) =>
      var checked := PathCheck(path, fs.existing);
      if checked.None? {
        return 1, commands, report;
      }
      commands := [WatchCommand(checked.value)];
      fs.existing := fs.existing + written;
      code := 0;
  }

  /** An unsupported command line exits with 1 before touching a file or starting sass. */
  lemma UnsupportedHasNoEffect(argv: seq<string>, existing: set<string>, written: set<string>, listing: Option<seq<string>>)
    requires |argv| >= 2 && !IsHelpFlag(argv[1]) && !IsModeFlag(argv[1])
    ensures RunOutcome(true, argv, existing, written, listing) == RunResult(1, [], [], existing)
  {
  }

  /** A target that is an existing file makes every mode exit with 1 with no effect. */
  lemma FileTargetHasNoEffect(argv: seq<string>, existing: set<string>, written: set<string>, listing: Option<seq<string>>)
    requires |argv| >= 3 && IsModeFlag(argv[1]) && argv[2] in existing
    ensures RunOutcome(true, argv, existing, written, listing) == RunResult(1, [], [], existing)
  {
  }

  /**
   * `-b dir -c` is `-b dir` followed by `-c dir` on the files the build left:
   * same command, and the cleaning decides the exit code, reports and files.
   */
  lemma BuildThenClean(program: string, b: string, path: string, c: string,
                       existing: set<string>, written: set<string>, listing: Option<seq<string>>)
    requires IsBuildFlag(b) && IsCleanFlag(c)
    ensures var combined := RunOutcome(true, [program, b, path, c], existing, written, listing);
            var built := RunOutcome(true, [program, b, path], existing, written, listing);
            var cleaned := RunOutcome(true, [program, "-c", path], built.existing, {}, listing);
            combined == RunResult(cleaned.code, built.commands, cleaned.report, cleaned.existing)
  {
  }

  /** After `-b dir -c`, no source map the listing showed in the directory is left, whatever the build wrote. */
  lemma BuildThenCleanLeavesNoListedMap(program: string, path: string, existing: set<string>,
                                        written: set<string>, names: seq<string>, n: string)
    requires path !in existing + written
    requires n in names && IsArtifact(n)
    ensures Normalise(path) + n !in RunOutcome(true, [program, "-b", path, "-c"], existing, written, Some(names)).existing
  {
    CleanRemovesExactlyArtifacts(path, names, existing + written);
  }
}
