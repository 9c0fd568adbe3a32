/**
 * `com.expretio.maven.plugins.capnp.ResourceProvider`: stages `capnp`, `capnpc-java` and
 * `java.capnp` from the provider's own package on the classpath directly into the work directory,
 * each at most once.
 */
module ComResources {
  import opened Wrappers
  import opened Strings
  import opened Files
  import opened Staging

  /** The provider's package name. */
  const PackageName: string := "com.expretio.maven.plugins.capnp"

  /** `RESOURCE_PATH`, written out; `ResourcePathValue` derives it from the package name. */
  const ResourcePath: string := "com/expretio/maven/plugins/capnp/"

  const CapnpName: string := "capnp"
  const CapnpcJavaName: string := "capnpc-java"
  const JavaSchemaName: string := "java.capnp"

  /** The resource path is the package name with every '.' replaced by '/', and a final '/'. */
  lemma ResourcePathValue()
    ensures ResourcePath == Replace(PackageName, '.', '/') + "/"
  {
    var replaced := Replace(PackageName, '.', '/');
    var expected := "com/expretio/maven/plugins/capnp";
    assert forall i | 0 <= i < |expected| :: replaced[i] == expected[i];
    assert replaced == expected;
  }

  /**
   * `new File(workDirectory, name)`: a resource is staged directly in the work directory. Each
   * name is a single path component, so the work directory's names gain exactly that name
   * (`DestinationIsChild`).
   */
  function Destination(workDirectory: FilePath, name: string): FilePath
  {
    FilePath(workDirectory.absolute || workDirectory.names == [], workDirectory.names + [name])
  }

  /** `Destination` is `new File(workDirectory, name)` for every name without a separator. */
  lemma DestinationIsChild(workDirectory: FilePath, name: string)
    requires name != "" && '/' !in name
    ensures Destination(workDirectory, name) == Child(workDirectory, name)
  {
    NamesFromPlain(name, "");
    assert "" + name == name;
  }

  /**
   * `getResource(name)`: stage the resource at `ResourcePath + name` into the destination; no
   * directory is created first. On success the `File` returned is the destination, holding the
   * resource's bytes, executable.
   */
  function Fetch(workDirectory: FilePath, entries: Entries, cwd: seq<string>, cp: Classpath, name: string)
    : (r: (Entries, Result<FilePath, StageFault>))
    ensures var dest := ResolveIn(cwd, Destination(workDirectory, name));
      (r.1.Success? <==> CanWrite(entries, dest) && ResourcePath + name in cp) &&
      (r.1.Success? ==> r.1.value == Destination(workDirectory, name) &&
                        dest in r.0 && r.0[dest] == RegularFile(cp[ResourcePath + name], true)) &&
      (r.1.Failure? ==> r.1.error != NoParent)
  {
    var dest := Destination(workDirectory, name);
    var staged := StageOf(entries, ResolveIn(cwd, dest), cp, ResourcePath + name);
    (staged.entries, if staged.fault.None? then Success(dest) else Failure(staged.fault.value))
  }

  /** Fetching again after a successful fetch changes nothing and returns the same `File`. */
  lemma FetchTwice(workDirectory: FilePath, entries: Entries, cwd: seq<string>, cp: Classpath, name: string)
    requires Fetch(workDirectory, entries, cwd, cp, name).1.Success?
    ensures Fetch(workDirectory, Fetch(workDirectory, entries, cwd, cp, name).0, cwd, cp, name)
         == Fetch(workDirectory, entries, cwd, cp, name)
  {
    StageTwice(entries, ResolveIn(cwd, Destination(workDirectory, name)), cp, ResourcePath + name);
  }

  /** `ResourceProvider`: the work directory and the three cached files. */
  class ResourceProvider {
    const workDirectory: FilePath
    var capnp: Option<FilePath>
    var capnpcJava: Option<FilePath>
    var javaSchema: Option<FilePath>

    /** `create(workDirectory)`: nothing staged yet. */
    constructor (workDirectory: FilePath)
      ensures this.workDirectory == workDirectory
      ensures capnp.None? && capnpcJava.None? && javaSchema.None?
    {
      this.workDirectory := workDirectory;
      capnp, capnpcJava, javaSchema := None, None, None;
    }

    /** `getResource(name)`, step by step: open the destination, look up, copy and mark executable. */
    method GetResource(fs: FileSystem, cp: Classpath, name: string) returns (r: Result<FilePath, StageFault>)
      modifies fs
      ensures (fs.entries, r) == Fetch(workDirectory, old(fs.entries), fs.cwd, cp, name)
    {
      var dest := Destination(workDirectory, name);
      var names := fs.Resolve(dest);
      if !CanWrite(fs.entries, names) {
        return Failure(CannotOpen);
      }
      fs.entries := Truncate(fs.entries, names);
      var location := ResourcePath + name;
      if location !in cp {
        return Failure(MissingResource(location));
      }
      fs.entries := Install(fs.entries, names, cp[location]);
      r := Success(dest);
    }

    /** `getCapnp()`: the cached compiler, or the compiler staged now and cached only if staging succeeded. */
    method GetCapnp(fs: FileSystem, cp: Classpath) returns (r: Result<FilePath, StageFault>)
      modifies fs, this`capnp
      ensures old(capnp).Some? ==> r == Success(old(capnp).value) && fs.entries == old(fs.entries)
      ensures old(capnp).None? ==> (fs.entries, r) == Fetch(workDirectory, old(fs.entries), fs.cwd, cp, CapnpName)
      ensures capnp == if r.Success? then Some(r.value) else None
    {
      if capnp.None? {
        var fetched := GetResource(fs, cp, CapnpName);
        if fetched.Failure? {
          return fetched;
        }
        capnp := Some(fetched.value);
      }
      r := Success(capnp.value);
    }

    /** `getCapnpcJava()`: the same for the java plugin. */
    method GetCapnpcJava(fs: FileSystem, cp: Classpath) returns (r: Result<FilePath, StageFault>)
      modifies fs, this`capnpcJava
      ensures old(capnpcJava).Some? ==> r == Success(old(capnpcJava).value) && fs.entries == old(fs.entries)
      ensures old(capnpcJava).None? ==> (fs.entries, r) == Fetch(workDirectory, old(fs.entries), fs.cwd, cp, CapnpcJavaName)
      ensures capnpcJava == if r.Success? then Some(r.value) else None
    {
      if capnpcJava.None? {
        var fetched := GetResource(fs, cp, CapnpcJavaName);
        if fetched.Failure? {
          return fetched;
        }
        capnpcJava := Some(fetched.value);
      }
      r := Success(capnpcJava.value);
    }

    /** `getJavaSchema()`: the same for the java schema. */
    method GetJavaSchema(fs: FileSystem, cp: Classpath) returns (r: Result<FilePath, StageFault>)
      modifies fs, this`javaSchema
      ensures old(javaSchema).Some? ==> r == Success(old(javaSchema).value) && fs.entries == old(fs.entries)
      ensures old(javaSchema).None? ==> (fs.entries, r) == Fetch(workDirectory, old(fs.entries), fs.cwd, cp, JavaSchemaName)
      ensures javaSchema == if r.Success? then Some(r.value) else None
    {
      if javaSchema.None? {
        var fetched := GetResource(fs, cp, JavaSchemaName);
        if fetched.Failure? {
          return fetched;
        }
        javaSchema := Some(fetched.value);
      }
      r := Success(javaSchema.value);
    }
  }
}
