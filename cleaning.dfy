/**
 * `clean` of sass-helper.py: remove the `.css.map` source maps the sass
 * compiler leaves in a directory.
 *
 * The file system is a `FileSystem` object whose `existing` field holds the
 * paths of the regular files that exist. What `os.listdir` returned is a
 * parameter: `None` when it raised, otherwise the entry names in listing
 * order. A listed name need not exist any more when `clean` comes to delete it.
 */
module Cleaning {

  import opened Wrappers
  import opened Paths

  const ArtifactSuffix: string := ".css.map"

  /** A generated source map, recognised by its name alone. */
  predicate IsArtifact(name: string) {
    EndsWith(name, ArtifactSuffix)
  }

  /** The listed names that are source maps, in listing order (the first loop of `clean`). */
  function Select(names: seq<string>): (r: seq<string>)
    ensures forall n :: n in r <==> n in names && IsArtifact(n)
    ensures |r| <= |names|
  {
    if names == [] then []
    else
      var last := names[|names| - 1];
      Select(names[..|names| - 1]) + (if IsArtifact(last) then [last] else [])
  }

  /** Each name prefixed by the directory (the second loop of `clean`). */
  function Qualify(dir: string, names: seq<string>): (r: seq<string>)
    ensures |r| == |names|
    ensures forall k :: 0 <= k < |names| ==> r[k] == dir + names[k]
  {
    seq(|names|, k requires 0 <= k < |names| => dir + names[k])
  }

  /** What `clean` prints about one path it tried to delete. */
  datatype Report = Removed(path: string) | Missing(path: string)

  /**
   * The third loop of `clean`: each target that still exists is removed and
   * reported as removed, each that does not is reported as missing.
   * Yields the reports and the files that remain.
   */
  function Delete(targets: seq<string>, present: set<string>): (res: (seq<Report>, set<string>))
    ensures |res.0| == |targets|
    ensures forall k :: 0 <= k < |targets| ==> res.0[k].path == targets[k]
    ensures res.1 <= present
  {
    if targets == [] then ([], present)
    else
      var t := targets[|targets| - 1];
      var done := Delete(targets[..|targets| - 1], present);
      (done.0 + [if t in done.1 then Removed(t) else Missing(t)], done.1 - {t})
  }

  /** How `clean` ends: it returns to its caller, it calls `exit`, or `os.listdir` raises. */
  datatype Status = Returned | Exited(code: int) | Raised

  datatype Outcome = Outcome(status: Status, report: seq<Report>, remaining: set<string>)

  /** The whole of `clean(path)` on the files `files`, given what the listing returned. */
  function CleanOutcome(path: string, listing: Option<seq<string>>, files: set<string>): (o: Outcome)
    ensures o.remaining <= files
    ensures path in files ==> o == Outcome(Exited(1), [], files)
    ensures !o.status.Returned? ==> o.report == [] && o.remaining == files
    ensures path !in files && listing.Some? ==> o.status == Returned || o.status == Exited(0)
    ensures path !in files && listing.None? ==> o == Outcome(Raised, [], files)
  {
    match PathCheck(path, files)
    case None => Outcome(Exited(1), [], files)
    case Some(dir) =>
      match listing
      case None => Outcome(Raised, [], files)
      case Some(names) =>
        var selected := Select(names);
        if |selected| < 1 then Outcome(Exited(0), [], files)
        else
          var res := Delete(Qualify(dir, selected), files);
          Outcome(Returned, res.0, res.1)
  }

  /** The paths `clean` targets: the directory followed by each listed source map. */
  function Targets(dir: string, names: seq<string>): set<string> {
    set n | n in names && IsArtifact(n) :: dir + n
  }

  class FileSystem {

    var existing: set<string>

    constructor (existing: set<string>)
      ensures this.existing == existing
    {
      this.existing := existing;
    }

    /**
     * `clean(path)`: check the path, list the directory, then run the three
     * loops of the source (select, qualify in place, delete) in turn.
     */
    method Clean(path: string, listing: Option<seq<string>>) returns (status: Status, report: seq<Report>)
      modifies this
      ensures CleanOutcome(path, listing, old(existing)) == Outcome(status, report, existing)
    {
      var checked := PathCheck(path, existing);
      if checked.None? {
        return Exited(1), [];
      }
      var dir := checked.value;
      if listing.None? {
        return Raised, [];
      }
      var files := SelectArtifacts(listing.value);
      if |files| < 1 {
        return Exited(0), [];
      }
      files := QualifyInPlace(dir, files);
      report := RemoveEach(files);
      status := Returned;
    }

    /** The third loop of `clean`: delete each target that exists, report each one. */
    method RemoveEach(targets: seq<string>) returns (report: seq<Report>)
      modifies this
      ensures (report, existing) == Delete(targets, old(existing))
    {
      ghost var present := existing;
      report := [];
      var k := 0;
      while k < |targets|
        invariant 0 <= k <= |targets|
        invariant (report, existing) == Delete(targets[..k], present)
      {
        var target := targets[k];
        DeleteStep(targets, k, present);
        if target in existing {
          report := report + [Removed(target)];
          existing := existing - {target};
        } else {
          report := report + [Missing(target)];
        }
        k := k + 1;
      }
      assert targets[..|targets|] == targets;
    }
  }

  /** The first loop of `clean`: collect the listed names that are source maps. */
  method SelectArtifacts(names: seq<string>) returns (files: seq<string>)
    ensures files == Select(names)
  {
    files := [];
    var i := 0;
    while i < |names|
      invariant 0 <= i <= |names|
      invariant files == Select(names[..i])
    {
      SelectStep(names, i);
      if IsArtifact(names[i]) {
        files := files + [names[i]];
      }
      i := i + 1;
    }
    assert names[..|names|] == names;
  }

  /** The second loop of `clean`: prefix every entry of the list with the directory, in place. */
  method QualifyInPlace(dir: string, names: seq<string>) returns (files: seq<string>)
    ensures files == Qualify(dir, names)
  {
    files := names;
    var j := 0;
    while j < |files|
      invariant 0 <= j <= |files| == |names|
      invariant forall k :: 0 <= k < j ==> files[k] == dir + names[k]
      invariant forall k :: j <= k < |files| ==> files[k] == names[k]
    {
      files := files[j := dir + files[j]];
      j := j + 1;
    }
  }

  /** Selecting from one more listed name adds that name exactly when it is a source map. */
  lemma SelectStep(names: seq<string>, i: nat)
    requires i < |names|
    ensures Select(names[..i + 1]) == Select(names[..i]) + if IsArtifact(names[i]) then [names[i]] else []
  {
    assert names[..i + 1][..i] == names[..i];
  }

  /** Deleting target k continues from where the earlier targets left the files. */
  lemma DeleteStep(targets: seq<string>, k: nat, present: set<string>)
    requires k < |targets|
    ensures var before := Delete(targets[..k], present);
      var t := targets[k];
      Delete(targets[..k + 1], present)
      == if t in before.1 then (before.0 + [Removed(t)], before.1 - {t})
         else (before.0 + [Missing(t)], before.1)
  {
    var before := Delete(targets[..k], present);
    assert targets[..k + 1][..k] == targets[..k];
    assert targets[k] !in before.1 ==> before.1 - {targets[k]} == before.1;
  }

  /** Deleting removes exactly the targets from the files present. */
  lemma {:induction false} DeleteRemaining(targets: seq<string>, present: set<string>)
    ensures Delete(targets, present).1 == present - (set t | t in targets)
  {
    if targets != [] {
      var init := targets[..|targets| - 1];
      DeleteRemaining(init, present);
      assert forall u :: u in targets <==> u in init || u == targets[|targets| - 1];
    }
  }

  /** The selection keeps listing order: selecting from a concatenation concatenates the selections. */
  lemma {:induction false} SelectConcat(a: seq<string>, b: seq<string>)
    ensures Select(a + b) == Select(a) + Select(b)
  {
    if b == [] {
      assert a + b == a;
    } else {
      var init := b[..|b| - 1];
      var last := b[|b| - 1];
      var tail := if IsArtifact(last) then [last] else [];
      assert (a + b)[..|a + b| - 1] == a + init;
      assert (a + b)[|a + b| - 1] == last;
      assert Select(a + b) == Select(a + init) + tail;
      SelectConcat(a, init);
      assert Select(b) == Select(init) + tail;
    }
  }

  /** A single listed name is selected exactly when it is a source map. */
  lemma SelectOne(n: string)
    ensures Select([n]) == if IsArtifact(n) then [n] else []
  {
  }

  /** Different names in the same directory are different paths. */
  lemma PrefixCancel(dir: string, a: string, b: string)
    requires dir + a == dir + b
    ensures a == b
  {
    assert a == (dir + a)[|dir|..];
    assert b == (dir + b)[|dir|..];
  }

  /** `clean` removes exactly the listed source maps of the directory and nothing else. */
  lemma CleanRemovesExactlyArtifacts(path: string, names: seq<string>, files: set<string>)
    requires path !in files
    ensures CleanOutcome(path, Some(names), files).remaining == files - Targets(Normalise(path), names)
  {
    var dir := Normalise(path);
    var selected := Select(names);
    var targets := Qualify(dir, selected);
    DeleteRemaining(targets, files);
    if |selected| < 1 {
      assert Targets(dir, names) == {};
    } else {
      forall t | t in Targets(dir, names) ensures t in targets {
        var n :| n in names && IsArtifact(n) && t == dir + n;
        var k :| 0 <= k < |selected| && selected[k] == n;
        assert targets[k] == t;
      }
      forall t | t in targets ensures t in Targets(dir, names) {
        var k :| 0 <= k < |targets| && targets[k] == t;
        assert selected[k] in selected;
      }
      assert (set t | t in targets) == Targets(dir, names);
    }
  }

  /** A listed entry that is not a source map survives `clean`, as does every unlisted path. */
  lemma CleanKeepsOtherEntries(path: string, names: seq<string>, files: set<string>, n: string)
    requires Normalise(path) + n in files
    requires !IsArtifact(n) || n !in names
    ensures Normalise(path) + n in CleanOutcome(path, Some(names), files).remaining
  {
    if path in files {
      return;
    }
    var dir := Normalise(path);
    CleanRemovesExactlyArtifacts(path, names, files);
    if dir + n in Targets(dir, names) {
      var m :| m in names && IsArtifact(m) && dir + n == dir + m;
      PrefixCancel(dir, n, m);
    }
  }

  /** `clean` exits with code 0 and touches nothing exactly when no listed entry is a source map. */
  lemma CleanWithoutArtifacts(path: string, names: seq<string>, files: set<string>)
    requires path !in files
    ensures CleanOutcome(path, Some(names), files).status == Exited(0)
        <==> forall n :: n in names ==> !IsArtifact(n)
    ensures (forall n :: n in names ==> !IsArtifact(n))
        ==> CleanOutcome(path, Some(names), files) == Outcome(Exited(0), [], files)
  {
    if Select(names) != [] {
      var n := Select(names)[0];
      assert n in names && IsArtifact(n);
    }
  }

  /**
   * A target is reported as removed exactly when it existed and was not an
   * earlier target; otherwise it is reported as missing and deletion goes on.
   */
  lemma {:induction false} DeleteReports(targets: seq<string>, present: set<string>, k: nat)
    requires k < |targets|
    ensures Delete(targets, present).0[k].Removed? <==> targets[k] in present && targets[k] !in targets[..k]
  {
    var init := targets[..|targets| - 1];
    if k < |init| {
      DeleteReports(init, present, k);
      assert init[..k] == targets[..k];
    } else {
      DeleteRemaining(init, present);
      assert init == targets[..k];
    }
  }

  /** Deleting two distinct present files out of three reports both and leaves the third. */
  lemma DeleteTwoPresent(x: string, y: string, z: string)
    requires x != y && x != z && y != z
    ensures Delete([x, y], {x, y, z}) == ([Removed(x), Removed(y)], {z})
  {
    var s := {x, y, z};
    assert [x, y][..1] == [x] && [x][..0] == [];
    assert Delete([], s) == ([], s);
    var d1 := Delete([x], s);
    assert d1 == ([] + [Removed(x)], s - {x});
    assert s - {x} == {y, z} && {y, z} - {y} == {z};
    var d2 := Delete([x, y], s);
    assert d2 == (d1.0 + [Removed(y)], d1.1 - {y});
    assert d1.0 == [Removed(x)];
    assert d2.0 == [Removed(x), Removed(y)];
  }

  /** Of two source maps and a stylesheet, the selection keeps the two maps in order. */
  lemma SelectTwoOfThree(a: string, b: string, c: string)
    requires IsArtifact(a) && IsArtifact(b) && !IsArtifact(c)
    ensures Select([a, b, c]) == [a, b]
  {
  }

  /**
   * A directory holding two source maps and one stylesheet, listed in that
   * order: both maps are removed and reported in listing order, the stylesheet stays.
   */
  lemma CleanTwoMapsOneStylesheet(dir: string, a: string, b: string, c: string)
    requires EndsWith(dir, Separator) && c != ""
    requires IsArtifact(a) && IsArtifact(b) && !IsArtifact(c) && a != b
    ensures CleanOutcome(dir, Some([a, b, c]), {dir + a, dir + b, dir + c})
      == Outcome(Returned, [Removed(dir + a), Removed(dir + b)], {dir + c})
  {
    var files := {dir + a, dir + b, dir + c};
    assert |dir + a| > |dir| && |dir + b| > |dir| && |dir + c| > |dir|;
    assert PathCheck(dir, files) == Some(dir);
    SelectTwoOfThree(a, b, c);
    var q := Qualify(dir, [a, b]);
    assert q == [dir + a, dir + b];
    if dir + a == dir + b { PrefixCancel(dir, a, b); }
    if dir + a == dir + c { PrefixCancel(dir, a, c); }
    if dir + b == dir + c { PrefixCancel(dir, b, c); }
    DeleteTwoPresent(dir + a, dir + b, dir + c);
  }
}
