/**
 * `com.expretio.maven.plugins.capnproto.CapnpCompiler`: the earliest variant. Building it validates
 * the settings and then initializes at once; `compile()` copies the compiler to a temporary file and
 * runs a single process for all the schemas, in the schema base directory.
 */
module CapnprotoCompiler {
  import opened Wrappers
  import opened Files
  import opened Lists
  import opened Processes
  import opened CommandLine
  import opened Validation
  import Res = CapnprotoResources

  /** Why building (the constructor's `validate()`) throws. */
  datatype Failure =
    | NotSpecified(what: string)            // MojoFailureException "<what> must be specified."
    | IsAFile(what: string)                 // MojoFailureException "<what> must not be a file."
    | ImportIsAFile(directory: FilePath)    // MojoFailureException "Import directory must not be a file: <dir>"
    | NoSchema                              // MojoFailureException "At least one schema file must be specified."
    | SchemaIsADirectory(schema: FilePath)  // MojoFailureException "Schema file must not be a directory: <schema>"
    | NullPointer                           // a null import directory or schema reached `isFile()` / `isDirectory()`

  /** Why `compile()` throws. */
  datatype CompileFault =
    | TempFileFailed              // MojoExecutionException "Cannot create temporary file: ..."
    | CopyFailed                  // MojoExecutionException "Cannot copy program file:..."
    | NullElement                 // NullPointerException: a null import directory or schema while writing the vector
    | ExitValue(code: int)        // MojoExecutionException "Unexpected compilation process exit value: <code>"
    | CannotCompile(cause: Outcome)  // MojoExecutionException "Cannot compile capnproto schemas: ..."

  /** The two directories `validate()` checks first, with the names its messages use. */
  function Directories(output: Option<FilePath>, schemaBase: Option<FilePath>): seq<(string, Option<FilePath>)>
  {
    [("Output directory", output), ("Schema base directory", schemaBase)]
  }

  /**
   * The exception `validate()` throws. The output and then the schema base directory must be set
   * and not be regular files; then no import directory may be a regular file (a `null` one throws
   * a `NullPointerException`); then the schema list must not be empty; then no schema may be a
   * directory (a `null` one throws a `NullPointerException`).
   */
  function ConfigurationFault(output: Option<FilePath>, schemaBase: Option<FilePath>, imports: seq<Option<FilePath>>,
                              schemas: seq<Option<FilePath>>, cwd: seq<string>, entries: Entries): (r: Option<Failure>)
    ensures r.None? <==>
      !Rejected(NullOrFile(cwd, entries), output) && !Rejected(NullOrFile(cwd, entries), schemaBase) &&
      (forall i :: 0 <= i < |imports| ==> !Rejected(NullOrFile(cwd, entries), imports[i])) &&
      schemas != [] && (forall j :: 0 <= j < |schemas| ==> !Rejected(NullOrDirectory(cwd, entries), schemas[j]))
    ensures r == Some(NoSchema) <==>
      !Rejected(NullOrFile(cwd, entries), output) && !Rejected(NullOrFile(cwd, entries), schemaBase) &&
      (forall i :: 0 <= i < |imports| ==> !Rejected(NullOrFile(cwd, entries), imports[i])) && schemas == []
    ensures r.Some? && (r.value.NotSpecified? || r.value.IsAFile?) ==>
      exists i ::
        FirstRejectedAt(Directories(output, schemaBase), NullOrFile(cwd, entries), i) &&
        r.value.what == Directories(output, schemaBase)[i].0 &&
        (r.value.NotSpecified? <==> Directories(output, schemaBase)[i].1.None?)
    ensures r.Some? && r.value.ImportIsAFile? ==>
      exists i ::
        FirstRejectedAt(Labelled("Import directory", imports), NullOrFile(cwd, entries), i) &&
        imports[i] == Some(r.value.directory)
    ensures r.Some? && r.value.SchemaIsADirectory? ==>
      schemas != [] &&
      exists j ::
        FirstRejectedAt(Labelled("Schema file", schemas), NullOrDirectory(cwd, entries), j) &&
        schemas[j] == Some(r.value.schema)
  {
    var dirs := Directories(output, schemaBase);
    var files := NullOrFile(cwd, entries);
    var named := Labelled("Import directory", imports);
    var listed := Labelled("Schema file", schemas);
    match FirstRejected(dirs, files)
    case Some(i) =>
      assert FirstRejectedAt(dirs, files, i);
      Some(if dirs[i].1.None? then NotSpecified(dirs[i].0) else IsAFile(dirs[i].0))
    case None =>
      assert !Rejected(files, dirs[0].1) && !Rejected(files, dirs[1].1);
      match FirstRejected(named, files)
      case Some(i) =>
        assert FirstRejectedAt(named, files, i) && named[i].1 == imports[i];
        Some(if imports[i].None? then NullPointer else ImportIsAFile(imports[i].value))
      case None =>
        assert forall i :: 0 <= i < |imports| ==> named[i].1 == imports[i];
        if schemas == [] then Some(NoSchema)
        else
          match FirstRejected(listed, NullOrDirectory(cwd, entries))
          case Some(j) =>
            assert FirstRejectedAt(listed, NullOrDirectory(cwd, entries), j) && listed[j].1 == schemas[j];
            Some(if schemas[j].None? then NullPointer else SchemaIsADirectory(schemas[j].value))
          case None =>
            assert forall j :: 0 <= j < |schemas| ==> listed[j].1 == schemas[j];
            None
  }

  /**
   * `File.createTempFile` makes a new file, so the temporary file it names is not on the filesystem
   * yet, and in particular is not the packaged compiler.
   */
  predicate FreshTemp(entries: Entries, cwd: seq<string>, temp: FilePath): (r: bool)
    ensures r ==> !IsFileAt(entries, ResolveIn(cwd, temp)) && ResolveIn(cwd, temp) != ResolveIn(cwd, Res.GetCapnp())
  {
    ResolveIn(cwd, temp) !in entries && ResolveIn(cwd, temp) != ResolveIn(cwd, Res.GetCapnp())
  }

  /**
   * `getBaseCommand()`: create an executable temporary file (`None` where `createTempFile` throws),
   * open it for writing, open the compiler at `src/main/resources/capnp` and copy it over; the
   * vector's first word is the temporary file's absolute path.
   */
  function BaseCommandOf(entries: Entries, cwd: seq<string>, temp: Option<FilePath>): (r: (Entries, Result<string, CompileFault>))
    ensures temp.None? ==> r == (entries, Failure(TempFileFailed))
    ensures temp.Some? && FreshTemp(entries, cwd, temp.value) ==>
      var t := ResolveIn(cwd, temp.value);
      var src := ResolveIn(cwd, Res.GetCapnp());
      (r.1.Success? <==> IsFileAt(entries, src)) &&
      (r.1.Success? ==> r.1.value == Absolute(cwd, temp.value) && r.0 == entries[t := RegularFile(entries[src].content, true)]) &&
      (r.1.Failure? ==> r.1.error == CopyFailed && r.0 == entries[t := RegularFile([], true)])
  {
    match temp
    case None => (entries, Failure(TempFileFailed))
    case Some(file) =>
      var t := ResolveIn(cwd, file);
      var created := entries[t := RegularFile([], true)];
      var src := ResolveIn(cwd, Res.GetCapnp());
      if !IsFileAt(created, src) then (created, Failure(CopyFailed))
      else (created[t := RegularFile(created[src].content, true)], Success(Absolute(cwd, file)))
  }

  /**
   * The vector `createCommand()` builds: the compiler, `compile --verbose -o<plugin>:<output>`, one
   * `-I` flag per import directory, then every schema's path as given, all in list order.
   */
  function CommandOf(cwd: seq<string>, compiler: string, output: FilePath, imports: seq<FilePath>, schemas: seq<FilePath>)
    : (r: seq<string>)
    ensures |r| == 4 + |imports| + |schemas|
    ensures r[0] == compiler && r[1] == "compile" && r[2] == "--verbose"
    ensures r[3] == "-o" + Absolute(cwd, Res.GetCapnpcJava()) + ":" + Absolute(cwd, output)
    ensures forall i :: 0 <= i < |imports| ==> r[4 + i] == "-I" + Absolute(cwd, imports[i])
    ensures forall j :: 0 <= j < |schemas| ==> r[4 + |imports| + j] == PathString(schemas[j])
  {
    VectorElements(cwd, compiler, Absolute(cwd, Res.GetCapnpcJava()), output, imports, schemas);
    Prefix(compiler, Absolute(cwd, Res.GetCapnpcJava()), Absolute(cwd, output), AbsoluteAll(cwd, imports)) + PathStrings(schemas)
  }

  /** Where each word of the prefix and each schema path lands in the vector. */
  lemma VectorElements(cwd: seq<string>, compiler: string, plugin: string, output: FilePath, imports: seq<FilePath>,
                       schemas: seq<FilePath>)
    ensures var r := Prefix(compiler, plugin, Absolute(cwd, output), AbsoluteAll(cwd, imports)) + PathStrings(schemas);
      |r| == 4 + |imports| + |schemas| &&
      r[0] == compiler && r[1] == "compile" && r[2] == "--verbose" && r[3] == "-o" + plugin + ":" + Absolute(cwd, output) &&
      (forall i :: 0 <= i < |imports| ==> r[4 + i] == "-I" + Absolute(cwd, imports[i])) &&
      (forall j :: 0 <= j < |schemas| ==> r[4 + |imports| + j] == PathString(schemas[j]))
  {
    var prefix := Prefix(compiler, plugin, Absolute(cwd, output), AbsoluteAll(cwd, imports));
    var paths := PathStrings(schemas);
    var r := prefix + paths;
    forall i | 0 <= i < |imports|
      ensures r[4 + i] == "-I" + Absolute(cwd, imports[i])
    {
      assert r[4 + i] == prefix[4 + i];
    }
    forall j | 0 <= j < |schemas|
      ensures r[4 + |imports| + j] == PathString(schemas[j])
    {
      assert r[4 + |imports| + j] == paths[j];
    }
  }

  /** `createCommand()`: the compiler copy first, then the vector; a `null` element throws. */
  function CreateCommandOf(entries: Entries, cwd: seq<string>, temp: Option<FilePath>, output: FilePath,
                           imports: seq<Option<FilePath>>, schemas: seq<Option<FilePath>>)
    : (r: (Entries, Result<seq<string>, CompileFault>))
    ensures r.0 == BaseCommandOf(entries, cwd, temp).0
    ensures r.1.Success? <==> BaseCommandOf(entries, cwd, temp).1.Success? && AllSome(imports) && AllSome(schemas)
    ensures BaseCommandOf(entries, cwd, temp).1.Failure? ==> r.1 == Failure(BaseCommandOf(entries, cwd, temp).1.error)
    ensures BaseCommandOf(entries, cwd, temp).1.Success? && r.1.Failure? ==> r.1.error == NullElement
    ensures r.1.Success? ==>
      |r.1.value| == 4 + |imports| + |schemas| && r.1.value[0] == BaseCommandOf(entries, cwd, temp).1.value
  {
    var base := BaseCommandOf(entries, cwd, temp);
    if base.1.Failure? then (base.0, Failure(base.1.error))
    else if !AllSome(imports) || !AllSome(schemas) then (base.0, Failure(NullElement))
    else (base.0, Success(CommandOf(cwd, base.1.value, output, Values(imports), Values(schemas))))
  }

  /** The exception an outcome of the process raises: none exactly for exit value 0. */
  function OutcomeFault(o: Outcome): (r: Option<CompileFault>)
    ensures r.None? <==> o == Exited(0)
    ensures o.Exited? && o.code != 0 ==> r == Some(ExitValue(o.code))
    ensures !o.Exited? ==> r == Some(CannotCompile(o))
  {
    match o
    case Exited(code) => if code != 0 then Some(ExitValue(code)) else None
    case _ => Some(CannotCompile(o))
  }

  /** `compile()`: the filesystem after it, the exception it throws, and the one process it launched. */
  function CompileOf(entries: Entries, cwd: seq<string>, temp: Option<FilePath>, run: Runner, output: FilePath,
                     schemaBase: FilePath, imports: seq<Option<FilePath>>, schemas: seq<Option<FilePath>>)
    : (r: (Entries, Option<CompileFault>, Option<Invocation>))
    ensures r.0 == CreateCommandOf(entries, cwd, temp, output, imports, schemas).0
    ensures r.2.Some? <==> CreateCommandOf(entries, cwd, temp, output, imports, schemas).1.Success?
    ensures r.2.Some? ==>
      r.2.value.argv == CreateCommandOf(entries, cwd, temp, output, imports, schemas).1.value &&
      r.2.value.directory == schemaBase && r.2.value.io == Inherit
    ensures r.1.None? <==> r.2.Some? && run(r.2.value) == Exited(0)
  {
    var command := CreateCommandOf(entries, cwd, temp, output, imports, schemas);
    if command.1.Failure? then (command.0, Some(command.1.error), None)
    else
      var launched := Invocation(command.1.value, schemaBase, Inherit);
      (command.0, OutcomeFault(run(launched)), Some(launched))
  }

  /**
   * With a fresh temporary file, `compile()` succeeds exactly when the packaged compiler exists, no
   * element is `null` and the one process, run in the schema base directory with the streams
   * inherited on the whole vector, exits with 0; a process is launched exactly when the vector
   * could be built.
   */
  lemma CompileSucceedsIff(entries: Entries, cwd: seq<string>, temp: FilePath, run: Runner, output: FilePath,
                           schemaBase: FilePath, imports: seq<Option<FilePath>>, schemas: seq<Option<FilePath>>)
    requires FreshTemp(entries, cwd, temp)
    ensures var c := CompileOf(entries, cwd, Some(temp), run, output, schemaBase, imports, schemas);
      var ready := IsFileAt(entries, ResolveIn(cwd, Res.GetCapnp())) && AllSome(imports) && AllSome(schemas);
      (c.2.Some? <==> ready) &&
      (ready ==>
         c.2.value == Invocation(CommandOf(cwd, Absolute(cwd, temp), output, Values(imports), Values(schemas)),
                                 schemaBase, Inherit)) &&
      (c.1.None? <==> ready && run(c.2.value) == Exited(0))
  {
  }

  /** `CapnpCompiler`: the settings that passed validation and the two lists, shared with the builder. */
  class Compiler {
    const outputDirectory: FilePath
    const schemaBaseDirectory: FilePath
    const importDirectories: JList<Option<FilePath>>
    const schemas: JList<Option<FilePath>>

    /** The field assignments of the constructor; the builder validates first and `Initialize` follows. */
    constructor (outputDirectory: FilePath, schemaBaseDirectory: FilePath, importDirectories: JList<Option<FilePath>>,
                 schemas: JList<Option<FilePath>>)
      ensures this.outputDirectory == outputDirectory && this.schemaBaseDirectory == schemaBaseDirectory
      ensures this.importDirectories == importDirectories && this.schemas == schemas
    {
      this.outputDirectory := outputDirectory;
      this.schemaBaseDirectory := schemaBaseDirectory;
      this.importDirectories := importDirectories;
      this.schemas := schemas;
    }

    /** `initialize()`: make the output directory, then append the java schema directory to the import list. */
    method Initialize(fs: FileSystem)
      modifies fs, importDirectories
      ensures fs.entries == MkdirsOf(old(fs.entries), fs.Resolve(outputDirectory))
      ensures importDirectories.elems == old(importDirectories.elems) + [Res.GetJavaSchemaDirectory()]
    {
      fs.Mkdirs(outputDirectory);
      importDirectories.Add(Res.GetJavaSchemaDirectory());
    }

    /** `getBaseCommand()` with `createTempFile()`: the temporary file is the oracle's answer. */
    method BaseCommand(fs: FileSystem, temp: Option<FilePath>) returns (r: Result<string, CompileFault>)
      modifies fs
      ensures (fs.entries, r) == BaseCommandOf(old(fs.entries), fs.cwd, temp)
    {
      if temp.None? {
        return Failure(TempFileFailed);
      }
      var names := fs.Resolve(temp.value);
      fs.entries := fs.entries[names := RegularFile([], true)];
      if !fs.IsFile(Res.GetCapnp()) {
        return Failure(CopyFailed);
      }
      var src := fs.Resolve(Res.GetCapnp());
      fs.entries := fs.entries[names := RegularFile(fs.entries[src].content, true)];
      r := Success(fs.AbsolutePath(temp.value));
    }

    /** `createCommand()`: the compiler copy, the fixed words, then one loop per list. */
    method CreateCommand(fs: FileSystem, temp: Option<FilePath>) returns (r: Result<seq<string>, CompileFault>)
      modifies fs
      ensures (fs.entries, r) == CreateCommandOf(old(fs.entries), fs.cwd, temp, outputDirectory,
                                                 importDirectories.elems, schemas.elems)
    {
      var compiler := BaseCommand(fs, temp);
      if compiler.Failure? {
        return Failure(compiler.error);
      }
      var plugin := fs.AbsolutePath(Res.GetCapnpcJava());
      var output := fs.AbsolutePath(outputDirectory);
      var command := AddImportFlags(fs.cwd, compiler.value, plugin, output, importDirectories.elems);
      if command.Failure? {
        return command;
      }
      r := AddSchemaPaths(command.value, schemas.elems);
    }

    /** The fixed words and the first loop of `createCommand()`: one flag per import directory, until a `null` one. */
    static method AddImportFlags(cwd: seq<string>, compiler: string, plugin: string, output: string,
                                 dirs: seq<Option<FilePath>>) returns (r: Result<seq<string>, CompileFault>)
      ensures r.Success? <==> AllSome(dirs)
      ensures r.Failure? ==> r.error == NullElement
      ensures r.Success? ==> r.value == Prefix(compiler, plugin, output, AbsoluteAll(cwd, Values(dirs)))
    {
      var command := [compiler, "compile", "--verbose", "-o" + plugin + ":" + output];
      assert command == Prefix(compiler, plugin, output, []);
      var i := 0;
      assert dirs[..0] == [];
      while i < |dirs|
        invariant 0 <= i <= |dirs|
        invariant AllSome(dirs[..i])
        invariant command == Prefix(compiler, plugin, output, AbsoluteAll(cwd, Values(dirs[..i])))
      {
        if dirs[i].None? {
          return Failure(NullElement);
        }
        assert dirs[..i + 1] == dirs[..i] + [dirs[i]];
        ValuesSnoc(dirs[..i], dirs[i]);
        AbsoluteAllSnoc(cwd, Values(dirs[..i]), dirs[i].value);
        PrefixSnoc(compiler, plugin, output, AbsoluteAll(cwd, Values(dirs[..i])), Absolute(cwd, dirs[i].value));
        command := command + ["-I" + Absolute(cwd, dirs[i].value)];
        i := i + 1;
      }
      assert dirs[..i] == dirs;
      r := Success(command);
    }

    /** The second loop of `createCommand()`: every schema's path, in list order, until a `null` one. */
    static method AddSchemaPaths(command: seq<string>, ss: seq<Option<FilePath>>) returns (r: Result<seq<string>, CompileFault>)
      ensures r.Success? <==> AllSome(ss)
      ensures r.Failure? ==> r.error == NullElement
      ensures r.Success? ==> r.value == command + PathStrings(Values(ss))
    {
      var result := command;
      var j := 0;
      assert ss[..0] == [];
      while j < |ss|
        invariant 0 <= j <= |ss|
        invariant AllSome(ss[..j])
        invariant result == command + PathStrings(Values(ss[..j]))
      {
        if ss[j].None? {
          return Failure(NullElement);
        }
        assert ss[..j + 1] == ss[..j] + [ss[j]];
        ValuesSnoc(ss[..j], ss[j]);
        PathStringsSnoc(Values(ss[..j]), ss[j].value);
        result := result + [PathString(ss[j].value)];
        j := j + 1;
      }
      assert ss[..j] == ss;
      r := Success(result);
    }

    /** `compile()`: build the vector, then one process in the schema base directory with inherited streams. */
    method Compile(fs: FileSystem, temp: Option<FilePath>, run: Runner) returns (fault: Option<CompileFault>, launched: Option<Invocation>)
      modifies fs
      ensures (fs.entries, fault, launched) == CompileOf(old(fs.entries), fs.cwd, temp, run, outputDirectory,
                                                         schemaBaseDirectory, importDirectories.elems, schemas.elems)
    {
      var command := CreateCommand(fs, temp);
      if command.Failure? {
        return Some(command.error), None;
      }
      var invocation := Invocation(command.value, schemaBaseDirectory, Inherit);
      var outcome := run(invocation);
      launched := Some(invocation);
      match outcome
      case Exited(code) =>
        fault := if code != 0 then Some(ExitValue(code)) else None;
      case _ =>
        fault := Some(CannotCompile(outcome));
    }
  }

  /** `CapnpCompiler.Builder`. */
  class Builder {
    var outputDirectory: Option<FilePath>
    var schemaBaseDirectory: Option<FilePath>
    const importDirectories: JList<Option<FilePath>>
    const schemas: JList<Option<FilePath>>

    /** `CapnpCompiler.builder()`: nothing set, empty lists. */
    constructor ()
      ensures outputDirectory.None? && schemaBaseDirectory.None?
      ensures fresh(importDirectories) && fresh(schemas) && importDirectories != schemas
      ensures importDirectories.elems == [] && schemas.elems == []
    {
      outputDirectory, schemaBaseDirectory := None, None;
      importDirectories := new JList();
      schemas := new JList();
    }

    /** The exception `validate()` would throw on this filesystem. */
    function Fault(cwd: seq<string>, entries: Entries): Option<Failure>
      reads this, importDirectories, schemas
    {
      ConfigurationFault(outputDirectory, schemaBaseDirectory, importDirectories.elems, schemas.elems, cwd, entries)
    }

    method SetOutputDirectory(d: Option<FilePath>)
      modifies this`outputDirectory
      ensures outputDirectory == d
    {
      outputDirectory := d;
    }

    method SetSchemaBaseDirectory(d: Option<FilePath>)
      modifies this`schemaBaseDirectory
      ensures schemaBaseDirectory == d
    {
      schemaBaseDirectory := d;
    }

    method AddImportDirectory(d: Option<FilePath>)
      modifies importDirectories
      ensures importDirectories.elems == old(importDirectories.elems) + [d]
    {
      importDirectories.Add(d);
    }

    /**
     * `addImportDirectory(Collection)` as written: the parameter has the field's name, so the
     * collection is appended to itself and the builder's own list is left as it was.
     */
    method AddImportDirectoryCollection(importDirectories: JList<Option<FilePath>>)
      modifies importDirectories
      ensures importDirectories.elems == old(importDirectories.elems) + old(importDirectories.elems)
      ensures importDirectories != this.importDirectories ==> this.importDirectories.elems == old(this.importDirectories.elems)
    {
      importDirectories.AddAll(importDirectories);
    }

    /** The evidently intended `addImportDirectory(Collection)`: append the directories to the builder's list. */
    method AddImportDirectories(ds: seq<Option<FilePath>>)
      modifies importDirectories
      ensures importDirectories.elems == old(importDirectories.elems) + ds
    {
      importDirectories.AddSeq(ds);
    }

    method AddSchema(s: Option<FilePath>)
      modifies schemas
      ensures schemas.elems == old(schemas.elems) + [s]
    {
      schemas.Add(s);
    }

    /** `addSchemas(Collection)` as written: the same shadowing, so the builder's schema list is left as it was. */
    method AddSchemasCollection(schemas: JList<Option<FilePath>>)
      modifies schemas
      ensures schemas.elems == old(schemas.elems) + old(schemas.elems)
      ensures schemas != this.schemas ==> this.schemas.elems == old(this.schemas.elems)
    {
      schemas.AddAll(schemas);
    }

    /** The evidently intended `addSchemas(Collection)`: append the schemas to the builder's list. */
    method AddSchemas(ss: seq<Option<FilePath>>)
      modifies schemas
      ensures schemas.elems == old(schemas.elems) + ss
    {
      schemas.AddSeq(ss);
    }

    /** `validate()`, in the order the checks are written. */
    method Validate(fs: FileSystem) returns (r: Option<Failure>)
      ensures r == Fault(fs.cwd, fs.entries)
    {
      var files := NullOrFile(fs.cwd, fs.entries);
      var dirs := Directories(outputDirectory, schemaBaseDirectory);
      if outputDirectory.None? {
        FirstRejectedUnique(dirs, files, 0);
        return Some(NotSpecified("Output directory"));
      }
      if fs.IsFile(outputDirectory.value) {
        FirstRejectedUnique(dirs, files, 0);
        return Some(IsAFile("Output directory"));
      }
      if schemaBaseDirectory.None? {
        FirstRejectedUnique(dirs, files, 1);
        return Some(NotSpecified("Schema base directory"));
      }
      if fs.IsFile(schemaBaseDirectory.value) {
        FirstRejectedUnique(dirs, files, 1);
        return Some(IsAFile("Schema base directory"));
      }
      assert FirstRejected(dirs, files).None?;
      r := ValidateLists(fs);
    }

    /** The rest of `validate()`: the import directories, the schema list's size, then the schemas. */
    method ValidateLists(fs: FileSystem) returns (r: Option<Failure>)
      ensures var files := NullOrFile(fs.cwd, fs.entries);
        var imports := importDirectories.elems;
        var ss := schemas.elems;
        r == match FirstRejected(Labelled("Import directory", imports), files)
          case Some(i) => Some(if imports[i].None? then NullPointer else ImportIsAFile(imports[i].value))
          case None =>
            if ss == [] then Some(NoSchema)
            else
              match FirstRejected(Labelled("Schema file", ss), NullOrDirectory(fs.cwd, fs.entries))
              case Some(j) => Some(if ss[j].None? then NullPointer else SchemaIsADirectory(ss[j].value))
              case None => None
    {
      var files := NullOrFile(fs.cwd, fs.entries);
      var imports := importDirectories.elems;
      var named := Labelled("Import directory", imports);
      var i := 0;
      while i < |imports|
        invariant 0 <= i <= |imports|
        invariant forall k :: 0 <= k < i ==> !Rejected(files, named[k].1)
      {
        if imports[i].None? {
          FirstRejectedUnique(named, files, i);
          return Some(NullPointer);
        }
        if fs.IsFile(imports[i].value) {
          FirstRejectedUnique(named, files, i);
          return Some(ImportIsAFile(imports[i].value));
        }
        i := i + 1;
      }
      var ss := schemas.elems;
      if ss == [] {
        return Some(NoSchema);
      }
      var directories := NullOrDirectory(fs.cwd, fs.entries);
      var listed := Labelled("Schema file", ss);
      var j := 0;
      while j < |ss|
        invariant 0 <= j <= |ss|
        invariant forall k :: 0 <= k < j ==> !Rejected(directories, listed[k].1)
      {
        if ss[j].None? {
          FirstRejectedUnique(listed, directories, j);
          return Some(NullPointer);
        }
        if fs.IsDirectory(ss[j].value) {
          FirstRejectedUnique(listed, directories, j);
          return Some(SchemaIsADirectory(ss[j].value));
        }
        j := j + 1;
      }
      return None;
    }

    /**
     * `build()`, that is the constructor: `validate()` before anything is written, then the
     * compiler shares this builder's two lists, and `initialize()` makes the output directory and
     * appends the java schema directory to this builder's own import list.
     */
    method Build(fs: FileSystem) returns (r: Result<Compiler, Failure>)
      modifies fs, importDirectories
      ensures old(Fault(fs.cwd, fs.entries)).Some? ==>
        r == Failure(old(Fault(fs.cwd, fs.entries)).value) && fs.entries == old(fs.entries) && unchanged(importDirectories)
      ensures old(Fault(fs.cwd, fs.entries)).None? ==>
        r.Success? && fs.entries == MkdirsOf(old(fs.entries), fs.Resolve(outputDirectory.value)) &&
        importDirectories.elems == old(importDirectories.elems) + [Res.GetJavaSchemaDirectory()]
      ensures r.Success? ==>
        fresh(r.value) && r.value.importDirectories == importDirectories && r.value.schemas == schemas &&
        r.value.outputDirectory == outputDirectory.value && r.value.schemaBaseDirectory == schemaBaseDirectory.value
    {
      var fault := Validate(fs);
      if fault.Some? {
        return Failure(fault.value);
      }
      var compiler := new Compiler(outputDirectory.value, schemaBaseDirectory.value, importDirectories, schemas);
      compiler.Initialize(fs);
      r := Success(compiler);
    }
  }

  /**
   * The shadowing made concrete: a directory and a schema handed to the two collection methods as
   * written end up twice in the caller's collections and not at all in the builder, where the
   * intended versions put them.
   */
  method ShadowedCollections(d: FilePath, s: FilePath)
    returns (importsAsWritten: seq<Option<FilePath>>, schemasAsWritten: seq<Option<FilePath>>,
             importsIntended: seq<Option<FilePath>>, schemasIntended: seq<Option<FilePath>>)
    ensures importsAsWritten == [] && schemasAsWritten == []
    ensures importsIntended == [Some(d)] && schemasIntended == [Some(s)]
  {
    var builder := new Builder();
    var dirs := new JList<Option<FilePath>>();
    dirs.Add(Some(d));
    var ss := new JList<Option<FilePath>>();
    ss.Add(Some(s));
    builder.AddImportDirectoryCollection(dirs);
    builder.AddSchemasCollection(ss);
    importsAsWritten, schemasAsWritten := builder.importDirectories.elems, builder.schemas.elems;
    var fixed := new Builder();
    fixed.AddImportDirectories([Some(d)]);
    fixed.AddSchemas([Some(s)]);
    importsIntended, schemasIntended := fixed.importDirectories.elems, fixed.schemas.elems;
  }
}
