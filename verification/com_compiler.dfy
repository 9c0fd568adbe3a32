/**
 * `com.expretio.maven.plugins.capnp.CapnpCompiler`: like the org variant, but the validation also
 * rejects regular files, and the compiler, plugin and java schema are staged into the work directory
 * by the com `ResourceProvider`.
 */
module ComCompiler {
  import opened Wrappers
  import opened Files
  import opened Lists
  import opened Processes
  import opened CommandLine
  import opened Validation
  import opened Orchestration
  import opened Staging
  import Res = ComResources

  /** Why environment setup failed; `initialize()` wraps every one of them the same way. */
  datatype SetupFault =
    | CopyFailed                    // the schema tree could not be copied into the work directory
    | StagingFailed(cause: StageFault)  // a resource could not be staged
    | NullImport                    // a null import directory reached `getAbsolutePath()`

  /** Why `build()` throws. */
  datatype Failure =
    | NotSpecified(what: string)    // MojoFailureException "<what> must be specified."
    | IsAFile(what: string)         // MojoFailureException "<what> must not be a file."
    | NoSchema                      // MojoFailureException "At least one schema file must be specified."
    | EnvironmentUnavailable(cause: SetupFault)  // MojoExecutionException "Unable to initialize capnp environment."

  /** The exception for a rejected setting: `null` is checked before the regular-file test. */
  function Rejection(setting: (string, Option<FilePath>)): Failure
  {
    if setting.1.None? then NotSpecified(setting.0) else IsAFile(setting.0)
  }

  /** The settings `validate()` checks, with the names its messages use, in the order it checks them. */
  function Named(output: Option<FilePath>, schemaBase: Option<FilePath>, workDir: Option<FilePath>,
                 imports: seq<Option<FilePath>>): (r: seq<(string, Option<FilePath>)>)
    ensures |r| == 3 + |imports|
    ensures r[0] == ("Output directory", output) && r[1] == ("Schema base directory", schemaBase)
    ensures r[2] == ("Working directory", workDir)
    ensures forall i :: 0 <= i < |imports| ==> r[3 + i] == ("Import directory", imports[i])
  {
    [("Output directory", output), ("Schema base directory", schemaBase), ("Working directory", workDir)]
    + seq(|imports|, i requires 0 <= i < |imports| => ("Import directory", imports[i]))
  }

  /**
   * The exception `validate()` throws: the first setting that is `null` or a regular file is
   * reported by name and reason; only when every setting passes does an empty schema list matter.
   */
  function ConfigurationFault(named: seq<(string, Option<FilePath>)>, schemas: seq<string>, cwd: seq<string>, entries: Entries)
    : (r: Option<Failure>)
    ensures r.None? <==>
      (forall i :: 0 <= i < |named| ==> named[i].1.Some? && !IsFileAt(entries, ResolveIn(cwd, named[i].1.value))) && schemas != []
    ensures r.Some? ==> r.value.NotSpecified? || r.value.IsAFile? || r.value.NoSchema?
    ensures r.Some? && !r.value.NoSchema? ==>
      exists i :: FirstRejectedAt(named, NullOrFile(cwd, entries), i) && r.value == Rejection(named[i])
    ensures r == Some(NoSchema) ==> forall i :: 0 <= i < |named| ==> !Rejected(NullOrFile(cwd, entries), named[i].1)
  {
    match FirstRejected(named, NullOrFile(cwd, entries))
    case Some(i) => Some(Rejection(named[i]))
    case None => if schemas == [] then Some(NoSchema) else None
  }

  /** The directory the java schema is staged in is the work directory itself. */
  lemma JavaSchemaParent(work: FilePath)
    requires work.absolute || work.names != []
    ensures Parent(Res.Destination(work, Res.JavaSchemaName)) == Some(work)
  {
    var dest := Res.Destination(work, Res.JavaSchemaName);
    assert dest.names == work.names + [Res.JavaSchemaName];
    assert dest.names[..|dest.names| - 1] == work.names;
  }

  /**
   * `setBase()` on a fresh provider: stage the compiler, then the plugin, then write one flag per
   * import directory; the filesystem after it, and the vector or the fault.
   */
  function BaseSetup(entries: Entries, cwd: seq<string>, cp: Classpath, work: FilePath, output: FilePath,
                     imports: seq<Option<FilePath>>): (r: (Entries, Result<seq<string>, SetupFault>))
    ensures r.1.Success? ==> AllSome(imports) && |r.1.value| == 4 + |imports|
    ensures r.1.Failure? ==> r.1.error.StagingFailed? || (r.1.error == NullImport && !AllSome(imports))
  {
    var capnp := Res.Fetch(work, entries, cwd, cp, Res.CapnpName);
    if capnp.1.Failure? then (capnp.0, Failure(StagingFailed(capnp.1.error)))
    else
      var plugin := Res.Fetch(work, capnp.0, cwd, cp, Res.CapnpcJavaName);
      if plugin.1.Failure? then (plugin.0, Failure(StagingFailed(plugin.1.error)))
      else if !AllSome(imports) then (plugin.0, Failure(NullImport))
      else (plugin.0, Success(BaseOf(cwd, capnp.1.value, plugin.1.value, output, Values(imports))))
  }

  /** `BaseSetup` once both fetches are known: the step `setBase()` takes after the plugin is staged. */
  lemma BaseSetupAfter(entries: Entries, cwd: seq<string>, cp: Classpath, work: FilePath, output: FilePath,
                       imports: seq<Option<FilePath>>, first: (Entries, Result<FilePath, StageFault>),
                       second: (Entries, Result<FilePath, StageFault>))
    requires first == Res.Fetch(work, entries, cwd, cp, Res.CapnpName) && first.1.Success?
    requires second == Res.Fetch(work, first.0, cwd, cp, Res.CapnpcJavaName)
    ensures var spec := BaseSetup(entries, cwd, cp, work, output, imports);
      spec.0 == second.0 &&
      (second.1.Failure? ==> spec.1 == Failure(StagingFailed(second.1.error))) &&
      (second.1.Success? && !AllSome(imports) ==> spec.1 == Failure(NullImport)) &&
      (second.1.Success? && AllSome(imports) ==>
        spec.1 == Success(BaseOf(cwd, first.1.value, second.1.value, output, Values(imports))))
  {
    var capnp := Res.Fetch(work, entries, cwd, cp, Res.CapnpName);
    assert capnp == first;
    if second.1.Success? && AllSome(imports) {
      assert BaseSetup(entries, cwd, cp, work, output, imports) ==
        (second.0, Success(BaseOf(cwd, first.1.value, second.1.value, output, Values(imports))));
    }
  }

  /** The filesystem, the import list and the vector (or fault) once `initialize()` has run. */
  datatype Setup = Setup(entries: Entries, imports: seq<Option<FilePath>>, base: Result<seq<string>, SetupFault>)

  /**
   * `initialize()` on a fresh provider: make the output directory, copy the schema tree into the
   * work directory, then stage the java schema and go on as `StagedSetup` says.
   */
  function SetupOf(entries: Entries, cwd: seq<string>, cp: Classpath, output: FilePath, schemaBase: FilePath,
                   work: FilePath, imports: seq<Option<FilePath>>): (r: Setup)
    ensures |r.imports| >= |imports| && r.imports[..|imports|] == imports
    ensures r.base == Failure(CopyFailed) <==>
      !CanMirror(MkdirsOf(entries, ResolveIn(cwd, output)), ResolveIn(cwd, schemaBase), ResolveIn(cwd, work))
  {
    var made := MkdirsOf(entries, ResolveIn(cwd, output));
    if !CanMirror(made, ResolveIn(cwd, schemaBase), ResolveIn(cwd, work)) then Setup(made, imports, Failure(CopyFailed))
    else StagedSetup(MirrorOf(made, ResolveIn(cwd, schemaBase), ResolveIn(cwd, work)), cwd, cp, output, schemaBase, work, imports)
  }

  /**
   * The rest of `initialize()` once the schema tree is copied: stage the java schema, append its
   * directory and the schema base directory to the import list, then `setBase()`.
   */
  function StagedSetup(copied: Entries, cwd: seq<string>, cp: Classpath, output: FilePath, schemaBase: FilePath,
                       work: FilePath, imports: seq<Option<FilePath>>): (r: Setup)
    ensures |r.imports| >= |imports| && r.imports[..|imports|] == imports
    ensures r.base.Success? ==> |r.imports| == |imports| + 2 && r.imports[|imports| + 1] == Some(schemaBase) && AllSome(r.imports)
    ensures r.base.Failure? ==> r.base.error != CopyFailed
  {
    var schema := Res.Fetch(work, copied, cwd, cp, Res.JavaSchemaName);
    if schema.1.Failure? then Setup(schema.0, imports, Failure(StagingFailed(schema.1.error)))
    else
      var all := imports + [Parent(schema.1.value), Some(schemaBase)];
      var rest := BaseSetup(schema.0, cwd, cp, work, output, all);
      Setup(rest.0, all, rest.1)
  }

  /** `SetupOf` step by step: the directories made, the copy, the java schema fetch, then `BaseSetup`. */
  lemma SetupOfSteps(entries: Entries, cwd: seq<string>, cp: Classpath, output: FilePath, schemaBase: FilePath,
                     work: FilePath, imports: seq<Option<FilePath>>)
    ensures var made := MkdirsOf(entries, ResolveIn(cwd, output));
      var s := SetupOf(entries, cwd, cp, output, schemaBase, work, imports);
      (!CanMirror(made, ResolveIn(cwd, schemaBase), ResolveIn(cwd, work)) ==> s == Setup(made, imports, Failure(CopyFailed))) &&
      (CanMirror(made, ResolveIn(cwd, schemaBase), ResolveIn(cwd, work)) ==>
        s == StagedSetup(MirrorOf(made, ResolveIn(cwd, schemaBase), ResolveIn(cwd, work)), cwd, cp, output, schemaBase, work, imports))
  {
  }

  /** `StagedSetup` once the java schema fetch is known. */
  lemma StagedSetupAfter(copied: Entries, cwd: seq<string>, cp: Classpath, output: FilePath, schemaBase: FilePath,
                         work: FilePath, imports: seq<Option<FilePath>>, schema: (Entries, Result<FilePath, StageFault>))
    requires schema == Res.Fetch(work, copied, cwd, cp, Res.JavaSchemaName)
    ensures var s := StagedSetup(copied, cwd, cp, output, schemaBase, work, imports);
      (schema.1.Failure? ==> s == Setup(schema.0, imports, Failure(StagingFailed(schema.1.error)))) &&
      (schema.1.Success? ==> var all := imports + [Parent(schema.1.value), Some(schemaBase)]; s == Setup(BaseSetup(schema.0, cwd, cp, work, output, all).0, all,
                                        BaseSetup(schema.0, cwd, cp, work, output, all).1))
  {
  }

  /**
   * A successful setup appends the work directory (where `java.capnp` now lies) and then the schema
   * base directory after the caller's import directories, and the vector starts with the staged
   * compiler and points the java plugin staged beside it at the output directory.
   */
  lemma SetupSucceeded(entries: Entries, cwd: seq<string>, cp: Classpath, output: FilePath, schemaBase: FilePath,
                       work: FilePath, imports: seq<Option<FilePath>>)
    requires work.absolute || work.names != []
    requires SetupOf(entries, cwd, cp, output, schemaBase, work, imports).base.Success?
    ensures var s := SetupOf(entries, cwd, cp, output, schemaBase, work, imports);
      s.imports == imports + [Some(work), Some(schemaBase)] &&
      AllSome(s.imports) &&
      s.base.value == BaseOf(cwd, Res.Destination(work, Res.CapnpName), Res.Destination(work, Res.CapnpcJavaName),
                             output, Values(s.imports))
  {
    SetupOfSteps(entries, cwd, cp, output, schemaBase, work, imports);
    var made := MkdirsOf(entries, ResolveIn(cwd, output));
    var copied := MirrorOf(made, ResolveIn(cwd, schemaBase), ResolveIn(cwd, work));
    var schema := Res.Fetch(work, copied, cwd, cp, Res.JavaSchemaName);
    StagedSetupAfter(copied, cwd, cp, output, schemaBase, work, imports, schema);
    JavaSchemaParent(work);
    var all := imports + [Some(work), Some(schemaBase)];
    var first := Res.Fetch(work, schema.0, cwd, cp, Res.CapnpName);
    var second := Res.Fetch(work, first.0, cwd, cp, Res.CapnpcJavaName);
    BaseSetupAfter(schema.0, cwd, cp, work, output, all, first, second);
  }

  /** `CapnpCompiler.Builder`. */
  class Builder {
    var outputDirectory: Option<FilePath>
    var schemaBaseDirectory: Option<FilePath>
    var workDirectory: Option<FilePath>
    const importDirectories: JList<Option<FilePath>>
    const schemas: JList<string>
    var verbose: bool

    /** `CapnpCompiler.builder()`: nothing set, empty lists, verbose on. */
    constructor ()
      ensures outputDirectory.None? && schemaBaseDirectory.None? && workDirectory.None?
      ensures fresh(importDirectories) && fresh(schemas) && importDirectories.elems == [] && schemas.elems == []
      ensures verbose
    {
      outputDirectory, schemaBaseDirectory, workDirectory := None, None, None;
      importDirectories := new JList();
      schemas := new JList();
      verbose := true;
    }

    /** The named settings `validate()` checks. */
    function Settings(): seq<(string, Option<FilePath>)>
      reads this, importDirectories
    {
      Named(outputDirectory, schemaBaseDirectory, workDirectory, importDirectories.elems)
    }

    /** The exception `validate()` would throw on this filesystem. */
    function Fault(cwd: seq<string>, entries: Entries): Option<Failure>
      reads this, importDirectories, schemas
    {
      ConfigurationFault(Settings(), schemas.elems, cwd, entries)
    }

    method SetOutputDirectory(d: Option<FilePath>)
      modifies this`outputDirectory
      ensures outputDirectory == d
    {
      outputDirectory := d;
    }

    method SetSchemaBaseDirectory(d: Option<FilePath>)
      modifies this`schemaBaseDirectory
      ensures schemaBaseDirectory == d
    {
      schemaBaseDirectory := d;
    }

    method SetWorkDirectory(d: Option<FilePath>)
      modifies this`workDirectory
      ensures workDirectory == d
    {
      workDirectory := d;
    }

    method AddImportDirectory(d: Option<FilePath>)
      modifies importDirectories
      ensures importDirectories.elems == old(importDirectories.elems) + [d]
    {
      importDirectories.Add(d);
    }

    /**
     * `addImportDirectory(Collection)` as written: the parameter has the field's name, so the
     * collection is appended to itself and the builder's own list is left as it was.
     */
    method AddImportDirectoryCollection(importDirectories: JList<Option<FilePath>>)
      modifies importDirectories
      ensures importDirectories.elems == old(importDirectories.elems) + old(importDirectories.elems)
      ensures importDirectories != this.importDirectories ==> this.importDirectories.elems == old(this.importDirectories.elems)
    {
      importDirectories.AddAll(importDirectories);
    }

    /** The evidently intended `addImportDirectory(Collection)`: append the directories to the builder's list. */
    method AddImportDirectories(ds: seq<Option<FilePath>>)
      modifies importDirectories
      ensures importDirectories.elems == old(importDirectories.elems) + ds
    {
      importDirectories.AddSeq(ds);
    }

    method AddSchema(s: string)
      modifies schemas
      ensures schemas.elems == old(schemas.elems) + [s]
    {
      schemas.Add(s);
    }

    method AddSchemas(ss: seq<string>)
      modifies schemas
      ensures schemas.elems == old(schemas.elems) + ss
    {
      schemas.AddSeq(ss);
    }

    method SetVerbose(v: bool)
      modifies this`verbose
      ensures verbose == v
    {
      verbose := v;
    }

    /** `validate(directory, name)`: `null` is reported before a regular file. */
    method ValidateDirectory(fs: FileSystem, directory: Option<FilePath>, name: string) returns (r: Option<Failure>)
      ensures r.None? <==> !Rejected(NullOrFile(fs.cwd, fs.entries), directory)
      ensures r.Some? ==> r.value == Rejection((name, directory))
    {
      if directory.None? {
        return Some(NotSpecified(name));
      }
      if fs.IsFile(directory.value) {
        return Some(IsAFile(name));
      }
      return None;
    }

    /** `validate()`: the three directories, then the import directories one by one, then the schema list. */
    method Validate(fs: FileSystem) returns (r: Option<Failure>)
      ensures r == Fault(fs.cwd, fs.entries)
    {
      var named := Settings();
      var rule := NullOrFile(fs.cwd, fs.entries);
      r := ValidateDirectory(fs, outputDirectory, "Output directory");
      if r.Some? {
        FirstRejectedUnique(named, rule, 0);
        return;
      }
      r := ValidateDirectory(fs, schemaBaseDirectory, "Schema base directory");
      if r.Some? {
        FirstRejectedUnique(named, rule, 1);
        return;
      }
      r := ValidateDirectory(fs, workDirectory, "Working directory");
      if r.Some? {
        FirstRejectedUnique(named, rule, 2);
        return;
      }
      var dirs := importDirectories.elems;
      var k := 0;
      while k < |dirs|
        invariant 0 <= k <= |dirs|
        invariant forall j :: 0 <= j < 3 + k ==> !Rejected(rule, named[j].1)
      {
        r := ValidateDirectory(fs, dirs[k], "Import directory");
        if r.Some? {
          FirstRejectedUnique(named, rule, 3 + k);
          return;
        }
        k := k + 1;
      }
      if schemas.elems == [] {
        return Some(NoSchema);
      }
      return None;
    }

    /**
     * `build()`: validation (before anything is written), then the command with a fresh resource
     * provider, then the compiler, which shares this builder's schema list.
     */
    method Build(fs: FileSystem, cp: Classpath) returns (r: Result<Compiler, Failure>)
      modifies fs, importDirectories
      ensures old(Fault(fs.cwd, fs.entries)).Some? ==>
        r == Failure(old(Fault(fs.cwd, fs.entries)).value) && fs.entries == old(fs.entries) && unchanged(importDirectories)
      ensures old(Fault(fs.cwd, fs.entries)).None? ==>
        var s := SetupOf(old(fs.entries), fs.cwd, cp, outputDirectory.value, schemaBaseDirectory.value,
                         workDirectory.value, old(importDirectories.elems));
        fs.entries == s.entries && importDirectories.elems == s.imports &&
        (r.Success? <==> s.base.Success?) &&
        (r.Failure? ==> r.error == EnvironmentUnavailable(s.base.error)) &&
        (r.Success? ==> r.value.command.base == s.base.value)
      ensures r.Success? ==>
        fresh(r.value) && fresh(r.value.command) &&
        r.value.schemas == schemas && r.value.verbose == verbose &&
        r.value.command.importDirectories == importDirectories &&
        r.value.command.workDirectory == workDirectory.value
    {
      var fault := Validate(fs);
      if fault.Some? {
        return Failure(fault.value);
      }
      var command := new Command(outputDirectory.value, schemaBaseDirectory.value, workDirectory.value, importDirectories);
      var failure := command.Initialize(fs, cp);
      if failure.Some? {
        return Failure(EnvironmentUnavailable(failure.value));
      }
      var compiler := new Compiler(command, schemas, verbose);
      r := Success(compiler);
    }
  }

  /** `CapnpCompiler.Command`: its own resource provider, the settings, the shared import list, the vector. */
  class Command {
    const resources: Res.ResourceProvider
    const outputDirectory: FilePath
    const schemaBaseDirectory: FilePath
    const workDirectory: FilePath
    const importDirectories: JList<Option<FilePath>>
    var base: seq<string>

    /** The field assignments of the constructor, with `ResourceProvider.create(workDirectory)`. */
    constructor (outputDirectory: FilePath, schemaBaseDirectory: FilePath, workDirectory: FilePath,
                 importDirectories: JList<Option<FilePath>>)
      ensures fresh(resources) && resources.workDirectory == workDirectory
      ensures resources.capnp.None? && resources.capnpcJava.None? && resources.javaSchema.None?
      ensures this.outputDirectory == outputDirectory && this.schemaBaseDirectory == schemaBaseDirectory
      ensures this.workDirectory == workDirectory && this.importDirectories == importDirectories && base == []
    {
      resources := new Res.ResourceProvider(workDirectory);
      this.outputDirectory := outputDirectory;
      this.schemaBaseDirectory := schemaBaseDirectory;
      this.workDirectory := workDirectory;
      this.importDirectories := importDirectories;
      base := [];
    }

    /** `initialize()`: everything `SetupOf` describes, any failure reported as one setup fault. */
    method Initialize(fs: FileSystem, cp: Classpath) returns (r: Option<SetupFault>)
      requires base == [] && resources.workDirectory == workDirectory
      requires resources.capnp.None? && resources.capnpcJava.None? && resources.javaSchema.None?
      modifies fs, importDirectories, this`base, resources
      ensures var s := SetupOf(old(fs.entries), fs.cwd, cp, outputDirectory, schemaBaseDirectory, workDirectory,
                               old(importDirectories.elems));
        fs.entries == s.entries && importDirectories.elems == s.imports &&
        (r.None? <==> s.base.Success?) &&
        (r.None? ==> base == s.base.value) && (r.Some? ==> r.value == s.base.error)
    {
      SetupOfSteps(fs.entries, fs.cwd, cp, outputDirectory, schemaBaseDirectory, workDirectory, importDirectories.elems);
      fs.Mkdirs(outputDirectory);
      var copied := fs.CopyDirectory(schemaBaseDirectory, workDirectory);
      if !copied {
        return Some(CopyFailed);
      }
      r := Stage(fs, cp);
    }

    /** The rest of `initialize()` once the schema tree is copied: what `StagedSetup` describes. */
    method Stage(fs: FileSystem, cp: Classpath) returns (r: Option<SetupFault>)
      requires base == [] && resources.workDirectory == workDirectory
      requires resources.capnp.None? && resources.capnpcJava.None? && resources.javaSchema.None?
      modifies fs, importDirectories, this`base, resources
      ensures var s := StagedSetup(old(fs.entries), fs.cwd, cp, outputDirectory, schemaBaseDirectory, workDirectory,
                                   old(importDirectories.elems));
        fs.entries == s.entries && importDirectories.elems == s.imports &&
        (r.None? <==> s.base.Success?) &&
        (r.None? ==> base == s.base.value) && (r.Some? ==> r.value == s.base.error)
    {
      ghost var fetched := Res.Fetch(workDirectory, fs.entries, fs.cwd, cp, Res.JavaSchemaName);
      StagedSetupAfter(fs.entries, fs.cwd, cp, outputDirectory, schemaBaseDirectory, workDirectory,
                       importDirectories.elems, fetched);
      var schema := resources.GetJavaSchema(fs, cp);
      if schema.Failure? {
        return Some(StagingFailed(schema.error));
      }
      r := Extend(fs, cp, Parent(schema.value));
    }

    /** The java schema's directory and the schema base directory join the import list, then `setBase()`. */
    method Extend(fs: FileSystem, cp: Classpath, javaSchemaDirectory: Option<FilePath>) returns (r: Option<SetupFault>)
      requires base == [] && resources.workDirectory == workDirectory
      requires resources.capnp.None? && resources.capnpcJava.None?
      modifies fs, importDirectories, this`base, resources`capnp, resources`capnpcJava
      ensures importDirectories.elems == old(importDirectories.elems) + [javaSchemaDirectory, Some(schemaBaseDirectory)]
      ensures var spec := BaseSetup(old(fs.entries), fs.cwd, cp, workDirectory, outputDirectory, importDirectories.elems);
        fs.entries == spec.0 && (r.None? <==> spec.1.Success?) &&
        (r.None? ==> base == spec.1.value) && (r.Some? ==> r.value == spec.1.error)
    {
      importDirectories.Add(javaSchemaDirectory);
      importDirectories.Add(Some(schemaBaseDirectory));
      r := SetBase(fs, cp);
    }

    /** `setBase()`: stage the compiler, the fixed words, stage the plugin, the output flag, the import flags. */
    method SetBase(fs: FileSystem, cp: Classpath) returns (r: Option<SetupFault>)
      requires base == [] && resources.workDirectory == workDirectory
      requires resources.capnp.None? && resources.capnpcJava.None?
      modifies fs, this`base, resources`capnp, resources`capnpcJava
      ensures var spec := BaseSetup(old(fs.entries), fs.cwd, cp, workDirectory, outputDirectory, importDirectories.elems);
        fs.entries == spec.0 && (r.None? <==> spec.1.Success?) &&
        (r.None? ==> base == spec.1.value) && (r.Some? ==> r.value == spec.1.error)
    {
      ghost var first := Res.Fetch(workDirectory, fs.entries, fs.cwd, cp, Res.CapnpName);
      ghost var second := Res.Fetch(workDirectory, first.0, fs.cwd, cp, Res.CapnpcJavaName);
      var capnp := resources.GetCapnp(fs, cp);
      if capnp.Failure? {
        return Some(StagingFailed(capnp.error));
      }
      BaseSetupAfter(old(fs.entries), fs.cwd, cp, workDirectory, outputDirectory, importDirectories.elems, first, second);
      base := [Absolute(fs.cwd, capnp.value), "compile", "--verbose"];
      r := SetPlugin(fs, cp, capnp.value);
    }

    /** `setBase()` once the compiler is staged and written: stage the plugin, then the output and import flags. */
    method SetPlugin(fs: FileSystem, cp: Classpath, capnp: FilePath) returns (r: Option<SetupFault>)
      requires base == [Absolute(fs.cwd, capnp), "compile", "--verbose"]
      requires resources.workDirectory == workDirectory && resources.capnpcJava.None?
      modifies fs, this`base, resources`capnpcJava
      ensures var fetched := Res.Fetch(workDirectory, old(fs.entries), fs.cwd, cp, Res.CapnpcJavaName);
        fs.entries == fetched.0 &&
        (fetched.1.Failure? ==> r == Some(StagingFailed(fetched.1.error))) &&
        (fetched.1.Success? ==> (r.None? <==> AllSome(importDirectories.elems))) &&
        (fetched.1.Success? && r.Some? ==> r.value == NullImport) &&
        (fetched.1.Success? && r.None? ==>
           base == BaseOf(fs.cwd, capnp, fetched.1.value, outputDirectory, Values(importDirectories.elems)))
    {
      var compiler := Absolute(fs.cwd, capnp);
      var plugin := resources.GetCapnpcJava(fs, cp);
      if plugin.Failure? {
        return Some(StagingFailed(plugin.error));
      }
      var pluginPath := Absolute(fs.cwd, plugin.value);
      var output := Absolute(fs.cwd, outputDirectory);
      base := base + ["-o" + pluginPath + ":" + output];
      assert base == Prefix(compiler, pluginPath, output, []);
      r := AddImportFlags(fs.cwd, compiler, pluginPath, output);
    }

    /** The loop of `setBase()`: one flag per import directory, in list order, until a `null` one. */
    method AddImportFlags(cwd: seq<string>, compiler: string, plugin: string, output: string) returns (r: Option<SetupFault>)
      requires base == Prefix(compiler, plugin, output, [])
      modifies this`base
      ensures r.None? <==> AllSome(importDirectories.elems)
      ensures r.Some? ==> r.value == NullImport
      ensures r.None? ==> base == Prefix(compiler, plugin, output, AbsoluteAll(cwd, Values(importDirectories.elems)))
    {
      var dirs := importDirectories.elems;
      var i := 0;
      assert dirs[..0] == [];
      while i < |dirs|
        invariant 0 <= i <= |dirs|
        invariant AllSome(dirs[..i])
        invariant base == Prefix(compiler, plugin, output, AbsoluteAll(cwd, Values(dirs[..i])))
      {
        if dirs[i].None? {
          return Some(NullImport);
        }
        assert dirs[..i + 1] == dirs[..i] + [dirs[i]];
        ValuesSnoc(dirs[..i], dirs[i]);
        AbsoluteAllSnoc(cwd, Values(dirs[..i]), dirs[i].value);
        PrefixSnoc(compiler, plugin, output, AbsoluteAll(cwd, Values(dirs[..i])), Absolute(cwd, dirs[i].value));
        base := base + ["-I" + Absolute(cwd, dirs[i].value)];
        i := i + 1;
      }
      assert dirs[..i] == dirs;
      r := None;
    }
  }

  /** `CapnpCompiler`: the command, the builder's schema list, and whether the process inherits the streams. */
  class Compiler {
    const command: Command
    const schemas: JList<string>
    const verbose: bool

    constructor (command: Command, schemas: JList<string>, verbose: bool)
      ensures this.command == command && this.schemas == schemas && this.verbose == verbose
    {
      this.command := command;
      this.schemas := schemas;
      this.verbose := verbose;
    }

    /** Streams are inherited exactly when verbose; the vector itself does not depend on it. */
    function Io(): StdIo
    {
      if verbose then Inherit else Pipe
    }

    /** `compile(schema)`: one process in the work directory; a non-zero exit or a launch failure throws. */
    method CompileSchema(schema: string, run: Runner) returns (fault: Option<SchemaFault>, launched: Invocation)
      ensures launched == Launch(command.base, schema, command.workDirectory, Io())
      ensures fault == FaultOf(schema, run(launched))
    {
      launched := Invocation(command.base + [schema], command.workDirectory, Io());
      var outcome := run(launched);
      match outcome
      case Exited(code) =>
        fault := if code != 0 then Some(ExitFault(schema, code)) else None;
      case _ =>
        fault := Some(LaunchFault(schema, outcome));
    }

    /** `compile()`: the schemas in list order, stopping at the first one that fails. */
    method Compile(run: Runner) returns (fault: Option<SchemaFault>, launched: seq<Invocation>)
      ensures Run(fault, launched) == RunSchemas(command.base, schemas.elems, command.workDirectory, Io(), run)
    {
      var all := schemas.elems;
      var i := 0;
      launched := [];
      while i < |all|
        invariant 0 <= i <= |all|
        invariant RunSchemas(command.base, all, command.workDirectory, Io(), run) ==
          Prepend(launched, RunSchemas(command.base, all[i..], command.workDirectory, Io(), run))
      {
        assert all[i..][1..] == all[i + 1..];
        var f, inv := CompileSchema(all[i], run);
        launched := launched + [inv];
        if f.Some? {
          return f, launched;
        }
        i := i + 1;
      }
      fault := None;
    }
  }

  /**
   * The shadowing made concrete: one directory handed to `addImportDirectory(Collection)` as written
   * ends up twice in the caller's collection and not at all in the builder, where the intended
   * version puts it.
   */
  method ShadowedImportDirectories(d: FilePath) returns (asWritten: seq<Option<FilePath>>, collection: seq<Option<FilePath>>,
                                                         intended: seq<Option<FilePath>>)
    ensures asWritten == [] && collection == [Some(d), Some(d)]
    ensures intended == [Some(d)]
  {
    var builder := new Builder();
    var dirs := new JList<Option<FilePath>>();
    dirs.Add(Some(d));
    builder.AddImportDirectoryCollection(dirs);
    asWritten, collection := builder.importDirectories.elems, dirs.elems;
    var fixed := new Builder();
    fixed.AddImportDirectories([Some(d)]);
    intended := fixed.importDirectories.elems;
  }
}
