/**
 * `org.expretio.maven.plugins.capnp.ResourceProvider`: stages the platform's compiler, java plugin
 * and java schema from the classpath into the work directory, each at most once.
 */
module OrgResources {
  import opened Wrappers
  import opened Files
  import opened Platforms
  import opened Staging

  /** `new File(workDirectory, location)`: where a resource is staged. */
  function Destination(workDirectory: FilePath, location: string): FilePath
  {
    Child(workDirectory, location)
  }

  /**
   * `getResource(location)`: make the destination's parent directories, then stage the resource
   * found at `location` itself. On success the `File` returned is the destination, holding the
   * resource's bytes, executable.
   */
  function Fetch(workDirectory: FilePath, entries: Entries, cwd: seq<string>, cp: Classpath, location: string)
    : (r: (Entries, Result<FilePath, StageFault>))
    ensures r.1.Success? ==>
      var dest := ResolveIn(cwd, Destination(workDirectory, location));
      r.1.value == Destination(workDirectory, location) && location in cp &&
      dest in r.0 && r.0[dest] == RegularFile(cp[location], true)
    ensures r.1.Failure? && r.1.error == NoParent ==> r.0 == entries
  {
    var dest := Destination(workDirectory, location);
    match Parent(dest)
    case None => (entries, Failure(NoParent))
    case Some(parent) =>
      var staged := StageOf(MkdirsOf(entries, ResolveIn(cwd, parent)), ResolveIn(cwd, dest), cp, location);
      (staged.entries, if staged.fault.None? then Success(dest) else Failure(staged.fault.value))
  }

  /** The parent's absolute names are the destination's without its last name. */
  lemma ResolveParent(cwd: seq<string>, p: FilePath)
    requires Parent(p).Some?
    ensures var d := ResolveIn(cwd, p); d != [] && ResolveIn(cwd, Parent(p).value) == d[..|d| - 1]
  {
    var q := Parent(p).value;
    assert q.names + [p.names[|p.names| - 1]] == p.names;
    if !p.absolute {
      assert cwd + p.names == (cwd + q.names) + [p.names[|p.names| - 1]];
    }
  }

  /**
   * Staging succeeds whenever the resource exists, no regular file blocks the destination's
   * parent directories, and the destination is not a directory.
   */
  lemma FetchSucceeds(workDirectory: FilePath, entries: Entries, cwd: seq<string>, cp: Classpath, location: string)
    requires Parent(Destination(workDirectory, location)).Some? && location in cp
    requires !BlockedByFile(entries, ResolveIn(cwd, Parent(Destination(workDirectory, location)).value))
    requires !IsDirectoryAt(entries, ResolveIn(cwd, Destination(workDirectory, location)))
    ensures Fetch(workDirectory, entries, cwd, cp, location).1 == Success(Destination(workDirectory, location))
  {
    var dest := Destination(workDirectory, location);
    ResolveParent(cwd, dest);
    MkdirsThenStage(entries, ResolveIn(cwd, dest), cp, location);
  }

  /**
   * Fetching again after a successful fetch leaves the filesystem as it is and returns the same
   * `File`: the cache only saves work, it does not change the outcome.
   */
  lemma FetchTwice(workDirectory: FilePath, entries: Entries, cwd: seq<string>, cp: Classpath, location: string)
    requires Fetch(workDirectory, entries, cwd, cp, location).1.Success?
    ensures Fetch(workDirectory, Fetch(workDirectory, entries, cwd, cp, location).0, cwd, cp, location)
         == Fetch(workDirectory, entries, cwd, cp, location)
  {
    var dest := Destination(workDirectory, location);
    ResolveParent(cwd, dest);
    var dn := ResolveIn(cwd, dest);
    MkdirsAfterStage(entries, dn, cp, location);
    StageTwice(MkdirsOf(entries, dn[..|dn| - 1]), dn, cp, location);
  }

  /** `ResourceProvider`: the platform, the work directory, and the three cached files. */
  class ResourceProvider {
    const platform: Platform
    const workDirectory: FilePath
    var capnp: Option<FilePath>
    var capnpcJava: Option<FilePath>
    var javaSchema: Option<FilePath>

    /** `create(platform, workDirectory)`: nothing staged yet. */
    constructor (platform: Platform, workDirectory: FilePath)
      ensures this.platform == platform && this.workDirectory == workDirectory
      ensures capnp.None? && capnpcJava.None? && javaSchema.None?
    {
      this.platform := platform;
      this.workDirectory := workDirectory;
      capnp, capnpcJava, javaSchema := None, None, None;
    }

    /** `getResource(location)`, step by step: parent directories, open, look up, copy and mark executable. */
    method GetResource(fs: FileSystem, cp: Classpath, location: string) returns (r: Result<FilePath, StageFault>)
      modifies fs
      ensures (fs.entries, r) == Fetch(workDirectory, old(fs.entries), fs.cwd, cp, location)
    {
      var dest := Destination(workDirectory, location);
      var parent := Parent(dest);
      if parent.None? {
        return Failure(NoParent);
      }
      fs.Mkdirs(parent.value);
      var names := fs.Resolve(dest);
      if !CanWrite(fs.entries, names) {
        return Failure(CannotOpen);
      }
      fs.entries := Truncate(fs.entries, names);
      if location !in cp {
        return Failure(MissingResource(location));
      }
      fs.entries := Install(fs.entries, names, cp[location]);
      r := Success(dest);
    }

    /** `getCapnp()`: the cached compiler, or the compiler staged now and cached only if staging succeeded. */
    method GetCapnp(fs: FileSystem, cp: Classpath) returns (r: Result<FilePath, StageFault>)
      modifies fs, this`capnp
      ensures old(capnp).Some? ==> r == Success(old(capnp).value) && fs.entries == old(fs.entries)
      ensures old(capnp).None? ==> (fs.entries, r) == Fetch(workDirectory, old(fs.entries), fs.cwd, cp, Capnp(platform))
      ensures capnp == if r.Success? then Some(r.value) else None
    {
      if capnp.None? {
        var fetched := GetResource(fs, cp, Capnp(platform));
        if fetched.Failure? {
          return fetched;
        }
        capnp := Some(fetched.value);
      }
      r := Success(capnp.value);
    }

    /** `getCapnpcJava()`: the same for the java plugin. */
    method GetCapnpcJava(fs: FileSystem, cp: Classpath) returns (r: Result<FilePath, StageFault>)
      modifies fs, this`capnpcJava
      ensures old(capnpcJava).Some? ==> r == Success(old(capnpcJava).value) && fs.entries == old(fs.entries)
      ensures old(capnpcJava).None? ==> (fs.entries, r) == Fetch(workDirectory, old(fs.entries), fs.cwd, cp, CapnpcJava(platform))
      ensures capnpcJava == if r.Success? then Some(r.value) else None
    {
      if capnpcJava.None? {
        var fetched := GetResource(fs, cp, CapnpcJava(platform));
        if fetched.Failure? {
          return fetched;
        }
        capnpcJava := Some(fetched.value);
      }
      r := Success(capnpcJava.value);
    }

    /** `getJavaSchema()`: the same for the java schema. */
    method GetJavaSchema(fs: FileSystem, cp: Classpath) returns (r: Result<FilePath, StageFault>)
      modifies fs, this`javaSchema
      ensures old(javaSchema).Some? ==> r == Success(old(javaSchema).value) && fs.entries == old(fs.entries)
      ensures old(javaSchema).None? ==> (fs.entries, r) == Fetch(workDirectory, old(fs.entries), fs.cwd, cp, JavaSchema(platform))
      ensures javaSchema == if r.Success? then Some(r.value) else None
    {
      if javaSchema.None? {
        var fetched := GetResource(fs, cp, JavaSchema(platform));
        if fetched.Failure? {
          return fetched;
        }
        javaSchema := Some(fetched.value);
      }
      r := Success(javaSchema.value);
    }
  }
}
