/**
 * `org.expretio.maven.plugins.capnp.CapnpCompiler`: a builder that checks its settings, prepares the
 * work directory and fixes the argument vector, and a compiler that runs `capnp` once per schema.
 */
module OrgCompiler {
  import opened Wrappers
  import opened Files
  import opened Lists
  import opened Processes
  import opened CommandLine
  import opened Validation
  import opened Orchestration

  /**
   * plexus `copyDirectoryStructure` checks that the two directories differ and that the source
   * exists, then loops over `listFiles()` unchecked: a regular file there throws a
   * `NullPointerException`, which the `IOException` handler of `initialize()` does not catch.
   */
  predicate ListsNull(entries: Entries, src: seq<string>, dst: seq<string>)
  {
    src != dst && IsFileAt(entries, src)
  }

  /** Why `build()` throws. */
  datatype Failure =
    | Mandatory(what: string)    // MojoFailureException "<what> is mandatory."
    | NoSchema                   // MojoFailureException "At least one schema file must be specified."
    | EnvironmentUnavailable     // MojoExecutionException "Unable to initialize capnp environment."
    | NullPointer                // NullPointerException: a null import directory reached `getAbsolutePath()`,
                                 // or plexus looped over the children of a schema directory that is a regular file

  /** The settings `validate()` checks, with the names its messages use, in the order it checks them. */
  function Named(output: Option<FilePath>, schemaDir: Option<FilePath>, workDir: Option<FilePath>,
                 capnp: Option<FilePath>, capnpcJava: Option<FilePath>, javaSchema: Option<FilePath>,
                 imports: seq<Option<FilePath>>): (r: seq<(string, Option<FilePath>)>)
    ensures |r| == 6 + |imports|
    ensures r[0] == ("Output directory", output) && r[1] == ("Schema base directory", schemaDir)
    ensures r[2] == ("Working directory", workDir) && r[3] == ("capnpn file", capnp)
    ensures r[4] == ("capnpnc java file", capnpcJava) && r[5] == ("capnpn java schema file", javaSchema)
    ensures forall i :: 0 <= i < |imports| ==> r[6 + i] == ("Import directory", imports[i])
  {
    [("Output directory", output), ("Schema base directory", schemaDir), ("Working directory", workDir),
     ("capnpn file", capnp), ("capnpnc java file", capnpcJava), ("capnpn java schema file", javaSchema)]
    + seq(|imports|, i requires 0 <= i < |imports| => ("Import directory", imports[i]))
  }

  /**
   * The exception `validate()` throws: the first `null` setting is reported by name; only when none
   * is `null` does an empty schema list matter.
   */
  function ConfigurationFault(named: seq<(string, Option<FilePath>)>, schemas: seq<string>): (r: Option<Failure>)
    ensures r.None? <==> (forall i :: 0 <= i < |named| ==> named[i].1.Some?) && schemas != []
    ensures r.Some? ==> r.value.Mandatory? || r.value.NoSchema?
    ensures r.Some? && r.value.Mandatory? ==> exists i :: FirstRejectedAt(named, NullOnly, i) && r.value.what == named[i].0
    ensures r == Some(NoSchema) <==> (forall i :: 0 <= i < |named| ==> named[i].1.Some?) && schemas == []
  {
    match FirstRejected(named, NullOnly)
    case Some(i) => Some(Mandatory(named[i].0))
    case None => if schemas == [] then Some(NoSchema) else None
  }

  /** `CapnpCompiler.Builder`. The two lists are objects: the command built later keeps the same import list. */
  class Builder {
    var outputDirectory: Option<FilePath>
    var schemaDirectory: Option<FilePath>
    var workDirectory: Option<FilePath>
    var capnpFile: Option<FilePath>
    var capnpcJavaFile: Option<FilePath>
    var capnpJavaSchemaFile: Option<FilePath>
    const importDirectories: JList<Option<FilePath>>
    const schemas: JList<string>
    var verbose: bool

    /** `CapnpCompiler.builder()`: nothing set, empty lists, verbose on. */
    constructor ()
      ensures outputDirectory.None? && schemaDirectory.None? && workDirectory.None?
      ensures capnpFile.None? && capnpcJavaFile.None? && capnpJavaSchemaFile.None?
      ensures fresh(importDirectories) && fresh(schemas) && importDirectories.elems == [] && schemas.elems == []
      ensures verbose
    {
      outputDirectory, schemaDirectory, workDirectory := None, None, None;
      capnpFile, capnpcJavaFile, capnpJavaSchemaFile := None, None, None;
      importDirectories := new JList();
      schemas := new JList();
      verbose := true;
    }

    /** The named settings `validate()` checks. */
    function Settings(): seq<(string, Option<FilePath>)>
      reads this, importDirectories
    {
      Named(outputDirectory, schemaDirectory, workDirectory, capnpFile, capnpcJavaFile, capnpJavaSchemaFile,
            importDirectories.elems)
    }

    /** The exception `validate()` would throw now. */
    function Fault(): Option<Failure>
      reads this, importDirectories, schemas
    {
      ConfigurationFault(Settings(), schemas.elems)
    }

    method SetOutputDirectory(d: Option<FilePath>)
      modifies this`outputDirectory
      ensures outputDirectory == d
    {
      outputDirectory := d;
    }

    method SetSchemaDirectory(d: Option<FilePath>)
      modifies this`schemaDirectory
      ensures schemaDirectory == d
    {
      schemaDirectory := d;
    }

    method SetWorkDirectory(d: Option<FilePath>)
      modifies this`workDirectory
      ensures workDirectory == d
    {
      workDirectory := d;
    }

    method SetCapnpFile(f: Option<FilePath>)
      modifies this`capnpFile
      ensures capnpFile == f
    {
      capnpFile := f;
    }

    method SetCapnpcJavaFile(f: Option<FilePath>)
      modifies this`capnpcJavaFile
      ensures capnpcJavaFile == f
    {
      capnpcJavaFile := f;
    }

    method SetCapnpJavaSchemaFile(f: Option<FilePath>)
      modifies this`capnpJavaSchemaFile
      ensures capnpJavaSchemaFile == f
    {
      capnpJavaSchemaFile := f;
    }

    method AddImportDirectory(d: Option<FilePath>)
      modifies importDirectories
      ensures importDirectories.elems == old(importDirectories.elems) + [d]
    {
      importDirectories.Add(d);
    }

    method AddImportDirectories(ds: seq<Option<FilePath>>)
      modifies importDirectories
      ensures importDirectories.elems == old(importDirectories.elems) + ds
    {
      importDirectories.AddSeq(ds);
    }

    method AddSchema(s: string)
      modifies schemas
      ensures schemas.elems == old(schemas.elems) + [s]
    {
      schemas.Add(s);
    }

    method AddSchemas(ss: seq<string>)
      modifies schemas
      ensures schemas.elems == old(schemas.elems) + ss
    {
      schemas.AddSeq(ss);
    }

    method SetVerbose(v: bool)
      modifies this`verbose
      ensures verbose == v
    {
      verbose := v;
    }

    /** `validate()`: the checks in order, then the import directories one by one, then the schema list. */
    method Validate() returns (r: Option<Failure>)
      ensures r == Fault()
    {
      var named := Settings();
      if outputDirectory.None? {
        FirstRejectedUnique(named, NullOnly, 0);
        return Some(Mandatory("Output directory"));
      }
      if schemaDirectory.None? {
        FirstRejectedUnique(named, NullOnly, 1);
        return Some(Mandatory("Schema base directory"));
      }
      if workDirectory.None? {
        FirstRejectedUnique(named, NullOnly, 2);
        return Some(Mandatory("Working directory"));
      }
      if capnpFile.None? {
        FirstRejectedUnique(named, NullOnly, 3);
        return Some(Mandatory("capnpn file"));
      }
      if capnpcJavaFile.None? {
        FirstRejectedUnique(named, NullOnly, 4);
        return Some(Mandatory("capnpnc java file"));
      }
      if capnpJavaSchemaFile.None? {
        FirstRejectedUnique(named, NullOnly, 5);
        return Some(Mandatory("capnpn java schema file"));
      }
      var dirs := importDirectories.elems;
      var i := 0;
      while i < |dirs|
        invariant 0 <= i <= |dirs|
        invariant forall j :: 0 <= j < 6 + i ==> named[j].1.Some?
      {
        if dirs[i].None? {
          FirstRejectedUnique(named, NullOnly, 6 + i);
          return Some(Mandatory("Import directory"));
        }
        i := i + 1;
      }
      if schemas.elems == [] {
        return Some(NoSchema);
      }
      return None;
    }

    /**
     * `build()`: validation, then the command (which makes the output and work directories, copies
     * the schema tree into the work directory, appends the java schema's parent and the schema
     * directory to this builder's own import list, and fixes the argument vector), then the compiler,
     * which shares this builder's schema list.
     */
    method Build(fs: FileSystem) returns (r: Result<Compiler, Failure>)
      modifies fs, importDirectories
      ensures old(Fault()).Some? ==> r == Failure(old(Fault()).value) && unchanged(fs) && unchanged(importDirectories)
      ensures old(Fault()).None? ==>
        var made := MkdirsOf(MkdirsOf(old(fs.entries), fs.Resolve(outputDirectory.value)), fs.Resolve(workDirectory.value));
        var mirrorable := CanMirror(made, fs.Resolve(schemaDirectory.value), fs.Resolve(workDirectory.value));
        var listsNull := ListsNull(made, fs.Resolve(schemaDirectory.value), fs.Resolve(workDirectory.value));
        var imports := old(importDirectories.elems) + [Parent(capnpJavaSchemaFile.value), schemaDirectory];
        (listsNull ==> r == Failure(NullPointer) && fs.entries == made && unchanged(importDirectories)) &&
        (!listsNull && !mirrorable ==>
          r == Failure(EnvironmentUnavailable) && fs.entries == made && unchanged(importDirectories)) &&
        (mirrorable ==>
          fs.entries == MirrorOf(made, fs.Resolve(schemaDirectory.value), fs.Resolve(workDirectory.value)) &&
          importDirectories.elems == imports &&
          (r.Success? <==> AllSome(imports)) && (r.Failure? ==> r.error == NullPointer))
      ensures r.Success? ==>
        fresh(r.value) && fresh(r.value.command) &&
        r.value.schemas == schemas && r.value.verbose == verbose &&
        r.value.command.importDirectories == importDirectories &&
        r.value.command.workDirectory == workDirectory.value &&
        r.value.command.base ==
          BaseOf(fs.cwd, capnpFile.value, capnpcJavaFile.value, outputDirectory.value, Values(importDirectories.elems))
    {
      var fault := Validate();
      if fault.Some? {
        return Failure(fault.value);
      }
      var command := new Command(outputDirectory.value, schemaDirectory.value, workDirectory.value,
                                 capnpFile.value, capnpcJavaFile.value, capnpJavaSchemaFile.value, importDirectories);
      var failure := command.Initialize(fs);
      if failure.Some? {
        return Failure(failure.value);
      }
      var compiler := new Compiler(command, schemas, verbose);
      r := Success(compiler);
    }
  }

  /** `CapnpCompiler.Command`: the settings, the import list shared with the builder, and the argument vector. */
  class Command {
    const outputDirectory: FilePath
    const schemaDirectory: FilePath
    const workDirectory: FilePath
    const capnpFile: FilePath
    const capnpcJavaFile: FilePath
    const capnpJavaSchemaFile: FilePath
    const importDirectories: JList<Option<FilePath>>
    var base: seq<string>

    /** The field assignments of the constructor; `Initialize` is the rest of it. */
    constructor (outputDirectory: FilePath, schemaDirectory: FilePath, workDirectory: FilePath, capnpFile: FilePath,
                 capnpcJavaFile: FilePath, capnpJavaSchemaFile: FilePath, importDirectories: JList<Option<FilePath>>)
      ensures this.outputDirectory == outputDirectory && this.schemaDirectory == schemaDirectory
      ensures this.workDirectory == workDirectory && this.capnpFile == capnpFile
      ensures this.capnpcJavaFile == capnpcJavaFile && this.capnpJavaSchemaFile == capnpJavaSchemaFile
      ensures this.importDirectories == importDirectories && base == []
    {
      this.outputDirectory := outputDirectory;
      this.schemaDirectory := schemaDirectory;
      this.workDirectory := workDirectory;
      this.capnpFile := capnpFile;
      this.capnpcJavaFile := capnpcJavaFile;
      this.capnpJavaSchemaFile := capnpJavaSchemaFile;
      this.importDirectories := importDirectories;
      base := [];
    }

    /**
     * `initialize()`: make the output and work directories (a failure there is ignored), copy the
     * schema tree into the work directory, append the two implicit import directories, fix the vector.
     */
    method Initialize(fs: FileSystem) returns (r: Option<Failure>)
      requires base == []
      modifies fs, importDirectories, this`base
      ensures
        var made := MkdirsOf(MkdirsOf(old(fs.entries), fs.Resolve(outputDirectory)), fs.Resolve(workDirectory));
        var mirrorable := CanMirror(made, fs.Resolve(schemaDirectory), fs.Resolve(workDirectory));
        var listsNull := ListsNull(made, fs.Resolve(schemaDirectory), fs.Resolve(workDirectory));
        var imports := old(importDirectories.elems) + [Parent(capnpJavaSchemaFile), Some(schemaDirectory)];
        (listsNull ==> r == Some(NullPointer) && fs.entries == made && unchanged(importDirectories)) &&
        (!listsNull && !mirrorable ==>
          r == Some(EnvironmentUnavailable) && fs.entries == made && unchanged(importDirectories)) &&
        (mirrorable ==>
          fs.entries == MirrorOf(made, fs.Resolve(schemaDirectory), fs.Resolve(workDirectory)) &&
          importDirectories.elems == imports &&
          (r.None? <==> AllSome(imports)) && (r.Some? ==> r.value == NullPointer))
      ensures r.None? ==>
        base == BaseOf(fs.cwd, capnpFile, capnpcJavaFile, outputDirectory, Values(importDirectories.elems))
    {
      fs.Mkdirs(outputDirectory);
      fs.Mkdirs(workDirectory);
      if ListsNull(fs.entries, fs.Resolve(schemaDirectory), fs.Resolve(workDirectory)) {
        return Some(NullPointer);
      }
      var copied := fs.CopyDirectory(schemaDirectory, workDirectory);
      if !copied {
        return Some(EnvironmentUnavailable);
      }
      r := Extend(fs);
    }

    /** The java schema's parent and the schema directory join the import list, then `setBase()`. */
    method Extend(fs: FileSystem) returns (r: Option<Failure>)
      requires base == []
      modifies importDirectories, this`base
      ensures importDirectories.elems == old(importDirectories.elems) + [Parent(capnpJavaSchemaFile), Some(schemaDirectory)]
      ensures r.None? <==> AllSome(importDirectories.elems)
      ensures r.Some? ==> r.value == NullPointer
      ensures r.None? ==>
        base == BaseOf(fs.cwd, capnpFile, capnpcJavaFile, outputDirectory, Values(importDirectories.elems))
    {
      importDirectories.Add(Parent(capnpJavaSchemaFile));
      importDirectories.Add(Some(schemaDirectory));
      r := SetBase(fs);
    }

    /**
     * `setBase()`: the fixed words and then one flag per import directory, in list order; a `null`
     * directory throws once the flags before it have been added.
     */
    method SetBase(fs: FileSystem) returns (r: Option<Failure>)
      requires base == []
      modifies this`base
      ensures r.None? <==> AllSome(importDirectories.elems)
      ensures r.Some? ==> r.value == NullPointer
      ensures r.None? ==>
        base == BaseOf(fs.cwd, capnpFile, capnpcJavaFile, outputDirectory, Values(importDirectories.elems))
    {
      var compiler := Absolute(fs.cwd, capnpFile);
      var plugin := Absolute(fs.cwd, capnpcJavaFile);
      var output := Absolute(fs.cwd, outputDirectory);
      base := [compiler, "compile", "--verbose", "-o" + plugin + ":" + output];
      assert base == Prefix(compiler, plugin, output, []);
      r := AddImportFlags(fs.cwd, compiler, plugin, output);
    }

    /** The loop of `setBase()`: one flag per import directory, in list order, until a `null` one. */
    method AddImportFlags(cwd: seq<string>, compiler: string, plugin: string, output: string) returns (r: Option<Failure>)
      requires base == Prefix(compiler, plugin, output, [])
      modifies this`base
      ensures r.None? <==> AllSome(importDirectories.elems)
      ensures r.Some? ==> r.value == NullPointer
      ensures r.None? ==> base == Prefix(compiler, plugin, output, AbsoluteAll(cwd, Values(importDirectories.elems)))
    {
      var dirs := importDirectories.elems;
      var i := 0;
      assert dirs[..0] == [];
      while i < |dirs|
        invariant 0 <= i <= |dirs|
        invariant AllSome(dirs[..i])
        invariant base == Prefix(compiler, plugin, output, AbsoluteAll(cwd, Values(dirs[..i])))
      {
        if dirs[i].None? {
          return Some(NullPointer);
        }
        assert dirs[..i + 1] == dirs[..i] + [dirs[i]];
        ValuesSnoc(dirs[..i], dirs[i]);
        AbsoluteAllSnoc(cwd, Values(dirs[..i]), dirs[i].value);
        PrefixSnoc(compiler, plugin, output, AbsoluteAll(cwd, Values(dirs[..i])), Absolute(cwd, dirs[i].value));
        base := base + ["-I" + Absolute(cwd, dirs[i].value)];
        i := i + 1;
      }
      assert dirs[..i] == dirs;
      r := None;
    }
  }

  /** `CapnpCompiler`: the command, the builder's schema list, and whether the process inherits the streams. */
  class Compiler {
    const command: Command
    const schemas: JList<string>
    const verbose: bool

    constructor (command: Command, schemas: JList<string>, verbose: bool)
      ensures this.command == command && this.schemas == schemas && this.verbose == verbose
    {
      this.command := command;
      this.schemas := schemas;
      this.verbose := verbose;
    }

    /** Streams are inherited exactly when verbose; the vector itself does not depend on it. */
    function Io(): StdIo
    {
      if verbose then Inherit else Pipe
    }

    /** `compile(schema)`: one process in the work directory; a non-zero exit or a launch failure throws. */
    method CompileSchema(schema: string, run: Runner) returns (fault: Option<SchemaFault>, launched: Invocation)
      ensures launched == Launch(command.base, schema, command.workDirectory, Io())
      ensures fault == FaultOf(schema, run(launched))
    {
      launched := Invocation(command.base + [schema], command.workDirectory, Io());
      var outcome := run(launched);
      match outcome
      case Exited(code) =>
        fault := if code != 0 then Some(ExitFault(schema, code)) else None;
      case _ =>
        fault := Some(LaunchFault(schema, outcome));
    }

    /** `compile()`: the schemas in list order, stopping at the first one that fails. */
    method Compile(run: Runner) returns (fault: Option<SchemaFault>, launched: seq<Invocation>)
      ensures Run(fault, launched) == RunSchemas(command.base, schemas.elems, command.workDirectory, Io(), run)
    {
      var all := schemas.elems;
      var i := 0;
      launched := [];
      while i < |all|
        invariant 0 <= i <= |all|
        invariant RunSchemas(command.base, all, command.workDirectory, Io(), run) ==
          Prepend(launched, RunSchemas(command.base, all[i..], command.workDirectory, Io(), run))
      {
        assert all[i..][1..] == all[i + 1..];
        var f, inv := CompileSchema(all[i], run);
        launched := launched + [inv];
        if f.Some? {
          return f, launched;
        }
        i := i + 1;
      }
      fault := None;
    }
  }
}
