/**
 * The shell commands that `build` and `watch` hand to the sass compiler.
 * Both strings end in the operand `dir:dir`, the directory as source and as
 * output. How the shell and sass split that string is not modelled.
 */
module Commands {

  import opened Wrappers

  const BuildPrefix: string := "sass "
  const WatchPrefix: string := "sass --no-source-map --watch "

  /** The command `build` runs for the normalised directory `dir`. */
  function BuildCommand(dir: string): string {
    BuildPrefix + dir + ":" + dir
  }

  /** The command `watch` runs for the normalised directory `dir`. */
  function WatchCommand(dir: string): string {
    WatchPrefix + dir + ":" + dir
  }

  /**
   * Reads back the `source:output` operand of a command that starts with
   * `prefix`, splitting the remainder at its middle character, which must be ':'.
   */
  function Operands(command: string, prefix: string): (r: Option<(string, string)>)
    ensures r.Some? ==> command == prefix + r.value.0 + ":" + r.value.1
    ensures r.Some? ==> |r.value.0| == |r.value.1|
  {
    if |prefix| <= |command| && command[..|prefix|] == prefix then
      var rest := command[|prefix|..];
      var half := |rest| / 2;
      if |rest| % 2 == 1 && rest[half] == ':' then
        assert rest == rest[..half] + [':'] + rest[half + 1..];
        assert command == prefix + rest;
        Some((rest[..half], rest[half + 1..]))
      else None
    else None
  }

  /** A command with `prefix` and operand `dir:dir` reads back as source and output `dir`. */
  lemma OperandsOfSelfCompile(prefix: string, dir: string)
    ensures Operands(prefix + dir + ":" + dir, prefix) == Some((dir, dir))
  {
    var command := prefix + dir + ":" + dir;
    assert command[..|prefix|] == prefix;
    var rest := command[|prefix|..];
    assert rest == dir + ":" + dir;
    assert |rest| / 2 == |dir|;
    assert rest[..|dir|] == dir;
    assert rest[|dir| + 1..] == dir;
  }

  /** The build command compiles `dir` into itself. */
  lemma BuildCompilesInPlace(dir: string)
    ensures Operands(BuildCommand(dir), BuildPrefix) == Some((dir, dir))
  {
    OperandsOfSelfCompile(BuildPrefix, dir);
  }

  /** The watch command compiles `dir` into itself. */
  lemma WatchCompilesInPlace(dir: string)
    ensures Operands(WatchCommand(dir), WatchPrefix) == Some((dir, dir))
  {
    OperandsOfSelfCompile(WatchPrefix, dir);
  }

  /** Different directories give different commands. */
  lemma CommandsInjective(d1: string, d2: string)
    ensures BuildCommand(d1) == BuildCommand(d2) ==> d1 == d2
    ensures WatchCommand(d1) == WatchCommand(d2) ==> d1 == d2
  {
    BuildCompilesInPlace(d1);
    BuildCompilesInPlace(d2);
    WatchCompilesInPlace(d1);
    WatchCompilesInPlace(d2);
  }

  /** Watch runs the build command with source maps turned off and watching turned on. */
  lemma WatchIsBuildWithFlags(dir: string)
    ensures WatchCommand(dir) == BuildPrefix + "--no-source-map --watch " + BuildCommand(dir)[|BuildPrefix|..]
  {
  }
}
