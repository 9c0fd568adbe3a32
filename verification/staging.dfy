/**
 * Copying a classpath resource into a file of the work directory, as the resource providers do:
 * open the destination (which truncates it), look the resource up, copy the bytes, mark the file
 * executable.
 */
module Staging {
  import opened Wrappers
  import opened Files

  /** The resources on the plugin's classpath, by location. */
  type Classpath = map<string, seq<bv8>>

  /** Why staging threw. */
  datatype StageFault =
    | NoParent                           // `getParentFile()` was `null` (NullPointerException)
    | CannotOpen                         // the destination could not be opened for writing (IOException)
    | MissingResource(location: string)  // `Resources.getResource` found nothing (IllegalArgumentException)

  /** The filesystem after staging, and the fault that interrupted it, if any. */
  datatype Staged = Staged(entries: Entries, fault: Option<StageFault>)

  /**
   * The destination is opened before the resource is looked up, so a missing resource leaves an
   * empty file behind; on success the destination holds the resource's bytes and is executable.
   * Nothing else changes either way.
   */
  function StageOf(entries: Entries, dest: seq<string>, cp: Classpath, location: string): (r: Staged)
    ensures r.fault.None? <==> CanWrite(entries, dest) && location in cp
    ensures r.fault.None? ==> dest in r.entries && r.entries[dest] == RegularFile(cp[location], true)
    ensures !CanWrite(entries, dest) ==> r == Staged(entries, Some(CannotOpen))
    ensures CanWrite(entries, dest) && location !in cp ==>
      r.fault == Some(MissingResource(location)) && dest in r.entries && r.entries[dest].RegularFile? && r.entries[dest].content == []
    ensures forall q :: q != dest ==> (q in r.entries <==> q in entries) && (q in r.entries ==> r.entries[q] == entries[q])
  {
    if !CanWrite(entries, dest) then Staged(entries, Some(CannotOpen))
    else
      var truncated := Truncate(entries, dest);
      if location !in cp then Staged(truncated, Some(MissingResource(location)))
      else Staged(Install(truncated, dest, cp[location]), None)
  }

  /** Staging again after a successful staging changes nothing: the file already holds the bytes. */
  lemma StageTwice(entries: Entries, dest: seq<string>, cp: Classpath, location: string)
    requires StageOf(entries, dest, cp, location).fault.None?
    ensures StageOf(StageOf(entries, dest, cp, location).entries, dest, cp, location) == StageOf(entries, dest, cp, location)
  {
    var once := StageOf(entries, dest, cp, location).entries;
    var parent := dest[..|dest| - 1];
    assert parent != dest;
    assert IsDirectoryAt(once, parent);
    assert CanWrite(once, dest);
    assert once[dest := RegularFile(cp[location], true)] == once;
  }

  /**
   * After making the parent directories and staging successfully, making them again changes
   * nothing: the staged file is not one of the parent's ancestors.
   */
  lemma MkdirsAfterStage(entries: Entries, dest: seq<string>, cp: Classpath, location: string)
    requires dest != []
    requires StageOf(MkdirsOf(entries, dest[..|dest| - 1]), dest, cp, location).fault.None?
    ensures var once := StageOf(MkdirsOf(entries, dest[..|dest| - 1]), dest, cp, location).entries;
      MkdirsOf(once, dest[..|dest| - 1]) == once
  {
    var parent := dest[..|dest| - 1];
    var made := MkdirsOf(entries, parent);
    var once := StageOf(made, dest, cp, location).entries;
    if BlockedByFile(entries, parent) {
      var k :| 1 <= k <= |parent| && IsFileAt(entries, parent[..k]);
      assert parent[..k] != dest;
      assert IsFileAt(once, parent[..k]);
    } else {
      forall k | 1 <= k <= |parent|
        ensures parent[..k] in once
      {
        assert parent[..k] in made && parent[..k] != dest;
      }
      MkdirsStable(once, parent);
    }
  }

  /**
   * Creating the parent directories first: when no regular file blocks the parent and the
   * destination is not a directory, staging an existing resource succeeds.
   */
  lemma MkdirsThenStage(entries: Entries, dest: seq<string>, cp: Classpath, location: string)
    requires dest != [] && location in cp
    requires !BlockedByFile(entries, dest[..|dest| - 1]) && !IsDirectoryAt(entries, dest)
    ensures StageOf(MkdirsOf(entries, dest[..|dest| - 1]), dest, cp, location).fault.None?
  {
    var parent := dest[..|dest| - 1];
    var made := MkdirsOf(entries, parent);
    assert !IsDirectoryAt(made, dest);
  }
}
