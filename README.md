# sass-helper, modelled in Dafny

`sass-helper.py` is a command-line wrapper around the dart-sass compiler. It
takes a mode flag and a directory, then does one of four things:

- `-h`: print help.
- `-c dir`: delete the `.css.map` source maps in the directory.
- `-b dir [-c]`: compile the directory in place, and clean it afterwards if asked.
- `-w dir`: watch the directory and compile on change.

This project models the logic beneath the I/O and proves properties of it.

- `paths.dfy`: module `Paths`, for `path_check`. It rejects a path that is an
  existing file. Otherwise it adds a trailing `/` when one is missing. The
  file also holds a small `Wrappers` module with an `Option` type.
- `commands.dfy`: module `Commands`, for the command strings of `build` and
  `watch`. Each is a fixed prefix followed by the operand `dir:dir`, the
  directory written twice around a colon.
- `cleaning.dfy`: module `Cleaning`, for `clean`. A `FileSystem` class holds
  the set of existing file paths. Its `Clean` method has the source's three
  loops: select the `.css.map` names, prefix them with the directory in
  place, and delete them one by one. Each loop is a method of its own
  (`SelectArtifacts`, `QualifyInPlace`, `FileSystem.RemoveEach`), proved
  against a function of its input, and `Clean` calls them in the source's
  order. `Clean` is proved equal to the
  specification function `CleanOutcome`. The properties of `clean` are
  lemmas about that function.
- `arguments.dfy`: module `Arguments`, for the `sys.argv` block. It is a pure
  function from the argument vector to an `Action`.
- `script.dfy`: module `Script`, for one whole run. `RunOutcome` gives the
  exit code, the commands handed to sass, the deletion reports and the files
  left. The `Run` method does the run step by step on a `FileSystem` and is
  proved equal to `RunOutcome`.

How the outside world is modelled:

- The file system is `FileSystem.existing`, the set of paths of existing
  regular files. `os.path.isfile`, `os.path.exists` and `os.remove` act on it.
- What `os.listdir` returned is a parameter. `None` means it raised, which
  is an uncaught exception and so exit code 1. Otherwise it is the entry
  names in listing order.
- A listed name need not exist at delete time. This is how the race between
  listing and deleting is represented.
- The files the compiler writes are a parameter, `written`. They are added
  to the file system when `build` or `watch` runs the compiler.
- Whether `sass` is on the search path is a boolean parameter.
- `exit()` with no argument is exit code 0. Running off the end of the
  script is exit code 0 too.

Behaviour of the code that is easy to miss, and that the model keeps:

- With no user argument, no branch of the `sys.argv` block runs and the
  script ends with exit code 0 (`Arguments.Dispatch` gives `NoAction`).
- A trailing clean flag after `-b dir` counts only when it is the third and
  last user argument (`sass-helper.py:121-122`). `-b dir -c x` builds and
  does not clean.
- Arguments after the directory are ignored for `-c` and `-w`.
- An empty directory argument normalises to `/`, the root directory.

## Model

| member | source | states |
|---|---|---|
| Paths.Normalise | sass-helper.py:23-27 | the result ends with `/`, starts with the input, is at most one character longer, and equals the input exactly when the input already ends with `/` |
| Paths.PathCheck | sass-helper.py:18-27 | the check fails (exit 1) exactly when the path is an existing file; otherwise it gives the normalised path |
| Paths.NormaliseUnique | sass-helper.py:23-27 | the contract of `Normalise` determines its result: any string meeting it is `Normalise(path)` |
| Paths.NormaliseIdempotent | sass-helper.py:23-27 | normalising twice equals normalising once |
| Paths.PathCheckIdempotent | sass-helper.py:18-27 | on a file system where no file path ends with `/`, a path that passed the check passes it again unchanged |
| Commands.BuildCompilesInPlace | sass-helper.py:72 | the build command string is `sass ` followed by `dir:dir`: split at its middle colon, both halves are the directory |
| Commands.WatchCompilesInPlace | sass-helper.py:82 | the watch command string is `sass --no-source-map --watch ` followed by `dir:dir`: split at its middle colon, both halves are the directory |
| Commands.CommandsInjective | sass-helper.py:67-84 | different directories give different build commands and different watch commands |
| Commands.WatchIsBuildWithFlags | sass-helper.py:82 | the watch command is the build command with `--no-source-map --watch` inserted after `sass` |
| Cleaning.Select | sass-helper.py:43-46 | a name is selected exactly when it is listed and ends with `.css.map`; the selection is no longer than the listing |
| Cleaning.SelectConcat | sass-helper.py:43-46 | selection keeps listing order: selecting from `a + b` gives the selection from `a` followed by the selection from `b` |
| Cleaning.SelectOne | sass-helper.py:44-46 | a single name is kept exactly when it ends with `.css.map` |
| Cleaning.Qualify | sass-helper.py:54-55 | the rewritten list has the same length, and entry k is the directory followed by name k |
| Cleaning.PrefixCancel | sass-helper.py:54-55 | different names in one directory give different paths |
| Cleaning.Delete | sass-helper.py:58-63 | one report per target, in order and naming that target; deletion only removes files |
| Cleaning.DeleteRemaining | sass-helper.py:58-63 | the files left are exactly the files present minus the targets |
| Cleaning.DeleteReports | sass-helper.py:58-63 | a target is reported removed exactly when it existed and was not an earlier target; otherwise it is reported missing and deletion goes on |
| Cleaning.CleanOutcome | sass-helper.py:38-63 | clean only removes files; a path that is an existing file gives exit 1 with no effect; a failing listing raises with no effect; otherwise clean returns or calls `exit()` (code 0); every exit or exception happens before any deletion |
| Cleaning.SelectArtifacts | sass-helper.py:43-46 | the first loop collects exactly `Select` of the listing |
| Cleaning.QualifyInPlace | sass-helper.py:54-55 | the second loop, rewriting the list entry by entry, leaves exactly `Qualify` of the directory and the names |
| Cleaning.FileSystem.RemoveEach | sass-helper.py:58-63 | the third loop gives exactly the reports and the file set of `Delete` on the files present before it |
| Cleaning.FileSystem.Clean | sass-helper.py:38-63 | the check, the listing and the three loops give exactly the status, reports and file set of `CleanOutcome` |
| Cleaning.CleanRemovesExactlyArtifacts | sass-helper.py:43-63 | after clean, the files are the old files minus the directory path of each listed `.css.map` name |
| Cleaning.CleanKeepsOtherEntries | sass-helper.py:43-63 | a path in the directory whose name is not a listed `.css.map` name is still present after clean |
| Cleaning.CleanWithoutArtifacts | sass-helper.py:48-51 | clean ends with `exit()` (code 0) exactly when no listed name ends with `.css.map`, and then it deletes nothing |
| Cleaning.CleanTwoMapsOneStylesheet | sass-helper.py:38-63 | with two maps and one stylesheet listed, both maps are removed and reported in listing order and only the stylesheet remains |
| Arguments.Dispatch | sass-helper.py:89-134 | help exactly with one help argument; unsupported exactly with one non-help argument or a non-mode first argument; clean, build and watch exactly with their flag and at least two arguments, taking the directory from the second; build cleans exactly with a clean flag as the third and last argument; no action without arguments |
| Arguments.DispatchRender | sass-helper.py:89-134 | every action is reached by a command line: dispatching its canonical rendering gives it back |
| Arguments.ShortAndLongFlagsAgree | sass-helper.py:89-134 | replacing a flag by its long form, in first or trailing position, selects the same action |
| Arguments.TrailingArguments | sass-helper.py:112-130 | arguments after the directory do not change clean or watch; build with more than three arguments does not clean |
| Script.RunOutcome | sass-helper.py:11-134 | every run ends with exit code 0 or 1 and hands at most one command to sass; without sass on the path it exits 1 and does nothing; help or no argument exits 0 and an unsupported command line exits 1, both with no effect; clean runs no command and exits 0 exactly when its target is not a file and the listing succeeds; build without clean and watch, on a target that is not a file, exit 0 after handing their one command to sass and adding the compiler's files; build with clean hands over the build command and exits 0 exactly when the target is not a file after the build and the listing succeeds |
| Script.Run | sass-helper.py:11-134 | the step-by-step run gives exactly the exit code, commands, reports and files of `RunOutcome` |
| Script.UnsupportedHasNoEffect | sass-helper.py:89-134 | an unknown first argument gives exit 1, no command and no file change, whatever follows it |
| Script.FileTargetHasNoEffect | sass-helper.py:19-21 | every mode whose target is an existing file exits 1 with no command and no file change |
| Script.BuildThenClean | sass-helper.py:118-126 | `-b dir -c` equals `-b dir` followed by `-c dir` on the files the build left |
| Script.BuildThenCleanLeavesNoListedMap | sass-helper.py:118-126 | after `-b dir -c`, no listed `.css.map` file of the directory is left, including maps the compiler just wrote |

## Left out

- The `shutil.which("sass")` lookup (sass-helper.py:11-13) is the boolean
  parameter `sassOnPath`. The search path itself is not modelled.
- `os.system` (sass-helper.py:74, 84) is not run. The model records the
  command string. The compiler's effect is the set of files it adds, and
  its exit status is ignored, as in the source. A compiler that deletes or
  overwrites files, or a watch that never returns, is not modelled.
- The command string is not split as `/bin/sh` and sass would split it.
  Shell word splitting, quoting, and a `:` inside the directory name (which
  sass would take as the operand separator) are not modelled.
- All printed text, including the help text and its layout
  (sass-helper.py:92-102), is left out. Only the per-file outcome of a
  deletion (removed or missing) is kept, as `Report`.
- `os.path.exists` is also true for directories, and `os.remove` raises on
  one. The model's file system holds regular files only, so a directory
  whose name ends in `.css.map` is not modelled.
- A failing `os.remove` (permissions, for example) raises in the source. It
  is not modelled, and every existing target is removed.
- Symbolic links and path aliasing (`a//b`, `./a`) are not modelled. Paths
  are compared as plain strings.
- The race between listing and deletion is modelled only as "a listed name
  may be absent at delete time". Concurrency is not modelled.
- The Python list that `clean` builds is a Dafny `seq` updated by index, not
  an array. Each of the three loops of `clean` is a method of its own rather
  than inline code.
