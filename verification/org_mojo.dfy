/**
 * The `generate` goal of the `org.expretio` variant (`CapnProtoMojo`): the classifier of the natives
 * dependency, schema discovery, copying the natives of the current platform into the work
 * directory, and handing everything to the compiler builder.
 */
module OrgMojo {
  import opened Wrappers
  import opened Strings
  import opened Files
  import opened Lists
  import N = NativesManagement
  import OrgCompiler

  /** The classifier value that asks for the current platform's natives. */
  const AutomaticClassifier: string := "auto"

  /** `new DefaultArtifact(groupId, artifactId, classifier, extension, version)`. */
  datatype Artifact = Artifact(groupId: string, artifactId: string, classifier: string, extension: string, version: string)

  /** What the goal throws. */
  datatype MojoFault =
    | NullPointer                              // no OS constant for the host, or no natives entry for it
    | AssertionFailed                          // the reflective architecture lookup failed
    | CopyFailed(workDirectory: FilePath)      // MojoExecutionException "Unable to copy natives to work directory: ..."
    | Rejected(failure: OrgCompiler.Failure)   // what `build()` threw

  /**
   * The classifier rule: "auto" becomes the lower-cased OS constant, '-', and the lower-cased
   * canonical architecture (the OS constant is dereferenced first); any other value is kept as it is.
   */
  function ClassifierOf(configured: string, currentOs: Option<string>, osArch: Option<string>, canonical: N.Canonical)
    : (r: Result<string, MojoFault>)
    ensures configured != AutomaticClassifier ==> r == Success(configured)
    ensures configured == AutomaticClassifier ==>
      (currentOs.None? ==> r == Failure(NullPointer)) &&
      (currentOs.Some? && canonical(osArch).None? ==> r == Failure(AssertionFailed)) &&
      (currentOs.Some? && canonical(osArch).Some? ==>
        r == Success(ToLower(currentOs.value) + "-" + ToLower(canonical(osArch).value))) &&
      (r.Success? ==> ToLower(r.value) == r.value && |r.value| > |currentOs.value| &&
                      r.value[..|currentOs.value|] == ToLower(currentOs.value) && r.value[|currentOs.value|] == '-')
  {
    if configured != AutomaticClassifier then Success(configured)
    else if currentOs.None? then Failure(NullPointer)
    else match canonical(osArch)
      case None => Failure(AssertionFailed)
      case Some(arch) =>
        var os := ToLower(currentOs.value);
        var r := os + "-" + ToLower(arch);
        assert r[..|os|] == os;
        ToLowerIdempotent(currentOs.value);
        ToLowerIdempotent(arch);
        ToLowerAppend(os + "-", ToLower(arch));
        ToLowerAppend(os, "-");
        assert ToLower("-") == "-";
        Success(r)
  }

  /** An explicit classifier is used as configured, even one that differs from "auto" only in case. */
  lemma ExplicitClassifierKept(currentOs: Option<string>, osArch: Option<string>, canonical: N.Canonical)
    ensures ClassifierOf("AUTO", currentOs, osArch, canonical) == Success("AUTO")
  {
    assert "AUTO"[0] != AutomaticClassifier[0];
  }

  /** `relativize(path)`: the names below the schema directory joined by the host separator, every '\\' then made '/'. */
  function Relativize(rel: seq<string>, separator: char): (r: string)
    ensures '\\' !in r
  {
    ReplaceRemoves(Join(rel, separator), '\\', '/');
    Replace(Join(rel, separator), '\\', '/')
  }

  /** The relativized path is the same on a Windows host ('\\') and on a Unix host ('/'). */
  lemma {:induction false} RelativizeHostIndependent(rel: seq<string>)
    ensures Relativize(rel, '\\') == Relativize(rel, '/')
  {
    if |rel| > 1 {
      RelativizeHostIndependent(rel[1..]);
      ReplaceAppend(rel[0] + ['\\'], Join(rel[1..], '\\'), '\\', '/');
      ReplaceAppend(rel[0], ['\\'], '\\', '/');
      ReplaceAppend(rel[0] + ['/'], Join(rel[1..], '/'), '\\', '/');
      ReplaceAppend(rel[0], ['/'], '\\', '/');
      assert Replace(['\\'], '\\', '/') == ['/'] == Replace(['/'], '\\', '/');
    }
  }

  /**
   * The relativized path of names without separators reads back as the same names on either host,
   * so it names the schema relative to the schema directory.
   */
  lemma RelativizeParsesBack(rel: seq<string>, separator: char)
    requires separator == '/' || separator == '\\'
    requires forall k :: 0 <= k < |rel| ==> rel[k] != "" && '/' !in rel[k] && '\\' !in rel[k]
    ensures Names(Relativize(rel, separator)) == rel
  {
    RelativizeHostIndependent(rel);
    var joined := Join(rel, '/');
    JoinChars(rel, '/', '\\');
    assert Replace(joined, '\\', '/') == joined;
    NamesJoin(rel);
  }

  /** A schema below the schema directory keeps its extension once relativized. */
  lemma RelativizeKeepsSuffix(rel: seq<string>, separator: char, suffix: string)
    requires rel != [] && EndsWith(rel[|rel| - 1], suffix) && '\\' !in suffix
    ensures EndsWith(Relativize(rel, separator), suffix)
  {
    var joined := Join(rel, separator);
    JoinEndsWithLast(rel, separator, suffix);
    var r := Relativize(rel, separator);
    forall i | |joined| - |suffix| <= i < |joined|
      ensures r[i] == joined[i]
    {
      assert joined[i] == suffix[i - (|joined| - |suffix|)];
    }
    assert r[|r| - |suffix|..] == joined[|joined| - |suffix|..];
  }

  /** `copyResource(source, target)`: the file under `target` named after the last name of the URL's path. */
  function TargetFile(target: FilePath, source: N.Url): (r: FilePath)
    ensures Name(Parse(source)) != "" ==> r.names == target.names + [Name(Parse(source))] && Name(r) == Name(Parse(source))
    ensures Name(Parse(source)) == "" ==> r.names == target.names
    ensures r.absolute == (target.absolute || target.names == [])
  {
    var name := Name(Parse(source));
    if name == "" then Child(target, name)
    else
      assert name == Parse(source).names[|Parse(source).names| - 1];
      NamesFromPlain(name, "");
      assert "" + name == name;
      Child(target, name)
  }

  /**
   * `copyResource`: the source is opened first, then the target file; the bytes are copied and the
   * file made executable. A `null` source, an unreadable source or an unwritable target throws (the
   * `None` result) and leaves the filesystem as it was.
   */
  function CopyOf(entries: Entries, cwd: seq<string>, source: Option<N.Url>, target: FilePath,
                  open: N.Url -> Option<seq<bv8>>): (r: (Entries, Option<FilePath>))
    ensures r.1.Some? <==>
      source.Some? && open(source.value).Some? && CanWrite(entries, ResolveIn(cwd, TargetFile(target, source.value)))
    ensures r.1.None? ==> r.0 == entries
    ensures r.1.Some? ==>
      var dest := ResolveIn(cwd, r.1.value);
      r.1.value == TargetFile(target, source.value) && dest in r.0 && r.0[dest] == RegularFile(open(source.value).value, true) &&
      forall q :: q != dest ==> (q in r.0 <==> q in entries) && (q in r.0 ==> r.0[q] == entries[q])
  {
    if source.None? then (entries, None)
    else
      var file := TargetFile(target, source.value);
      var bytes := open(source.value);
      if bytes.None? || !CanWrite(entries, ResolveIn(cwd, file)) then (entries, None)
      else (Install(entries, ResolveIn(cwd, file), bytes.value), Some(file))
  }

  /** Copying the same resource again changes nothing: the target already holds the bytes. */
  lemma CopyTwice(entries: Entries, cwd: seq<string>, source: Option<N.Url>, target: FilePath, open: N.Url -> Option<seq<bv8>>)
    requires CopyOf(entries, cwd, source, target, open).1.Some?
    ensures CopyOf(CopyOf(entries, cwd, source, target, open).0, cwd, source, target, open) == CopyOf(entries, cwd, source, target, open)
  {
    var once := CopyOf(entries, cwd, source, target, open);
    var dest := ResolveIn(cwd, once.1.value);
    var parent := dest[..|dest| - 1];
    assert parent != dest;
    assert IsDirectoryAt(once.0, parent);
    assert once.0[dest := RegularFile(open(source.value).value, true)] == once.0;
  }

  /**
   * The three copies of the current platform's natives into the work directory, in the order the
   * builder receives them, stopping at the first that throws; earlier copies stay.
   */
  function StagedOf(entries: Entries, cwd: seq<string>, info: N.NativesInfo, open: N.Url -> Option<seq<bv8>>, work: FilePath)
    : (r: (Entries, Option<seq<FilePath>>))
    ensures r.1.Some? ==> |r.1.value| == 3
  {
    var capnp := CopyOf(entries, cwd, info.capnpUrl, work, open);
    if capnp.1.None? then (capnp.0, None)
    else
      var plugin := CopyOf(capnp.0, cwd, info.capnpcJavaUrl, work, open);
      if plugin.1.None? then (plugin.0, None)
      else
        var schema := CopyOf(plugin.0, cwd, info.capnpJavaSchemaUrl, work, open);
        if schema.1.None? then (schema.0, None)
        else (schema.0, Some([capnp.1.value, plugin.1.value, schema.1.value]))
  }

  /**
   * After staging, each of the three files lies in the work directory and holds the bytes of its
   * URL, unless a later copy went to the same file (two URLs with the same last name), in which case
   * the later bytes win. Nothing outside the three files changes.
   */
  lemma StagedFiles(entries: Entries, cwd: seq<string>, info: N.NativesInfo, open: N.Url -> Option<seq<bv8>>, work: FilePath)
    requires StagedOf(entries, cwd, info, open, work).1.Some?
    ensures var r := StagedOf(entries, cwd, info, open, work);
      var files := r.1.value;
      var capnp := ResolveIn(cwd, files[0]);
      var plugin := ResolveIn(cwd, files[1]);
      var schema := ResolveIn(cwd, files[2]);
      files == [TargetFile(work, info.capnpUrl.value), TargetFile(work, info.capnpcJavaUrl.value),
                TargetFile(work, info.capnpJavaSchemaUrl.value)] &&
      capnp in r.0 && plugin in r.0 && schema in r.0 &&
      r.0[schema] == RegularFile(open(info.capnpJavaSchemaUrl.value).value, true) &&
      (plugin != schema ==> r.0[plugin] == RegularFile(open(info.capnpcJavaUrl.value).value, true)) &&
      (capnp != plugin && capnp != schema ==> r.0[capnp] == RegularFile(open(info.capnpUrl.value).value, true)) &&
      forall q :: q != capnp && q != plugin && q != schema ==> (q in r.0 <==> q in entries) && (q in r.0 ==> r.0[q] == entries[q])
  {
    var c := CopyOf(entries, cwd, info.capnpUrl, work, open);
    var p := CopyOf(c.0, cwd, info.capnpcJavaUrl, work, open);
    var s := CopyOf(p.0, cwd, info.capnpJavaSchemaUrl, work, open);
    assert StagedOf(entries, cwd, info, open, work) == (s.0, Some([c.1.value, p.1.value, s.1.value]));
  }

  /** `CapnProtoMojo` with its configured parameters. */
  class CapnProtoMojo {
    const outputDirectory: FilePath
    const schemaDirectory: FilePath
    const workDirectory: FilePath
    const schemaFileExtension: string
    const schemas: Option<seq<string>>
    const importDirectories: Option<seq<Option<FilePath>>>
    const nativeDependencyVersion: string
    const nativeDependencyClassifier: string
    const verbose: bool

    constructor (outputDirectory: FilePath, schemaDirectory: FilePath, workDirectory: FilePath, schemaFileExtension: string,
                 schemas: Option<seq<string>>, importDirectories: Option<seq<Option<FilePath>>>,
                 nativeDependencyVersion: string, nativeDependencyClassifier: string, verbose: bool)
      ensures this.outputDirectory == outputDirectory && this.schemaDirectory == schemaDirectory
      ensures this.workDirectory == workDirectory && this.schemaFileExtension == schemaFileExtension
      ensures this.schemas == schemas && this.importDirectories == importDirectories
      ensures this.nativeDependencyVersion == nativeDependencyVersion
      ensures this.nativeDependencyClassifier == nativeDependencyClassifier && this.verbose == verbose
    {
      this.outputDirectory := outputDirectory;
      this.schemaDirectory := schemaDirectory;
      this.workDirectory := workDirectory;
      this.schemaFileExtension := schemaFileExtension;
      this.schemas := schemas;
      this.importDirectories := importDirectories;
      this.nativeDependencyVersion := nativeDependencyVersion;
      this.nativeDependencyClassifier := nativeDependencyClassifier;
      this.verbose := verbose;
    }

    /** `createNativeArtifact()`: `org.expretio.maven:capnp-natives`, a jar, with the classifier rule applied. */
    function CreateNativeArtifact(currentOs: Option<string>, osArch: Option<string>, canonical: N.Canonical)
      : (r: Result<Artifact, MojoFault>)
      ensures var c := ClassifierOf(nativeDependencyClassifier, currentOs, osArch, canonical);
        (r.Success? <==> c.Success?) && (c.Failure? ==> r == Failure(c.error)) &&
        (r.Success? ==> r.value == Artifact("org.expretio.maven", "capnp-natives", c.value, "jar", nativeDependencyVersion))
    {
      match ClassifierOf(nativeDependencyClassifier, currentOs, osArch, canonical)
      case Failure(e) => Failure(e)
      case Success(classifier) => Success(Artifact("org.expretio.maven", "capnp-natives", classifier, "jar", nativeDependencyVersion))
    }

    /** The file the traversal reaches through the names `rel` below the schema directory. */
    function SchemaFile(rel: seq<string>): FilePath
    {
      FilePath(schemaDirectory.absolute, schemaDirectory.names + rel)
    }

    /** `isSchema(file)`: not a directory, and the name ends with "." and the extension. */
    predicate IsSchema(entries: Entries, cwd: seq<string>, rel: seq<string>): (r: bool)
      ensures IsFileAt(entries, ResolveIn(cwd, SchemaFile(rel))) ==> (r <==> EndsWith(Name(SchemaFile(rel)), "." + schemaFileExtension))
      ensures ResolveIn(cwd, SchemaFile(rel)) !in entries && ResolveIn(cwd, SchemaFile(rel)) != [] ==>
        (r <==> EndsWith(Name(SchemaFile(rel)), "." + schemaFileExtension))
    {
      !IsDirectoryAt(entries, ResolveIn(cwd, SchemaFile(rel))) && EndsWith(Name(SchemaFile(rel)), "." + schemaFileExtension)
    }

    /**
     * `getAllSchemas()` over a pre-order traversal given as the names below the schema directory of
     * every file it visits: the relativized path of each schema, in traversal order.
     */
    function SchemasOf(entries: Entries, cwd: seq<string>, traversal: seq<seq<string>>, separator: char): (r: seq<string>)
      ensures |r| <= |traversal|
      ensures forall k :: 0 <= k < |r| ==> '\\' !in r[k]
      decreases |traversal|
    {
      if traversal == [] then []
      else
        var last := traversal[|traversal| - 1];
        SchemasOf(entries, cwd, traversal[..|traversal| - 1], separator)
        + (if IsSchema(entries, cwd, last) then [Relativize(last, separator)] else [])
    }

    /** Every schema the traversal visits is reported. */
    lemma {:induction false} SchemasComplete(entries: Entries, cwd: seq<string>, traversal: seq<seq<string>>, separator: char,
                                             i: int)
      requires 0 <= i < |traversal| && IsSchema(entries, cwd, traversal[i])
      ensures Relativize(traversal[i], separator) in SchemasOf(entries, cwd, traversal, separator)
      decreases |traversal|
    {
      var init := traversal[..|traversal| - 1];
      if i < |traversal| - 1 {
        SchemasComplete(entries, cwd, init, separator, i);
      }
    }

    /** Everything reported is the relativized path of a schema the traversal visits. */
    lemma {:induction false} SchemasSound(entries: Entries, cwd: seq<string>, traversal: seq<seq<string>>, separator: char,
                                          k: int)
      requires 0 <= k < |SchemasOf(entries, cwd, traversal, separator)|
      ensures exists i ::
        0 <= i < |traversal| && IsSchema(entries, cwd, traversal[i]) &&
        SchemasOf(entries, cwd, traversal, separator)[k] == Relativize(traversal[i], separator)
      decreases |traversal|
    {
      var init := traversal[..|traversal| - 1];
      var before := SchemasOf(entries, cwd, init, separator);
      if k < |before| {
        SchemasSound(entries, cwd, init, separator, k);
        var i :| 0 <= i < |init| && IsSchema(entries, cwd, init[i]) && before[k] == Relativize(init[i], separator);
        assert init[i] == traversal[i];
      } else {
        assert IsSchema(entries, cwd, traversal[|traversal| - 1]);
      }
    }

    /**
     * The traversal Guava's `preOrderTraversal` makes: the schema directory itself, then, when it is
     * a directory, every entry strictly below it.
     */
    ghost predicate TraversalCovers(entries: Entries, cwd: seq<string>, traversal: seq<seq<string>>)
    {
      forall rel :: rel in traversal <==>
        rel == [] || (IsDirectoryAt(entries, ResolveIn(cwd, schemaDirectory)) && ResolveIn(cwd, schemaDirectory) + rel in entries)
    }

    /**
     * Over a traversal of the whole tree below a schema directory that is a directory, every regular
     * file below it whose name ends with "." and the extension is reported, relativized.
     */
    lemma {:induction false} SchemasFindEveryFile(entries: Entries, cwd: seq<string>, traversal: seq<seq<string>>,
                                                  separator: char)
      requires TraversalCovers(entries, cwd, traversal) && IsDirectoryAt(entries, ResolveIn(cwd, schemaDirectory))
      ensures forall p :: MatchingFileBelow(entries, ResolveIn(cwd, schemaDirectory), p, "." + schemaFileExtension) ==>
        Relativize(p[|ResolveIn(cwd, schemaDirectory)|..], separator) in SchemasOf(entries, cwd, traversal, separator)
    {
      var root := ResolveIn(cwd, schemaDirectory);
      forall p | MatchingFileBelow(entries, root, p, "." + schemaFileExtension)
        ensures Relativize(p[|root|..], separator) in SchemasOf(entries, cwd, traversal, separator)
      {
        var rel := p[|root|..];
        assert root + rel == p;
        ResolveExtended(cwd, schemaDirectory, rel);
        assert rel in traversal;
        var i :| 0 <= i < |traversal| && traversal[i] == rel;
        SchemasComplete(entries, cwd, traversal, separator, i);
      }
    }

    /**
     * Over a traversal of a schema directory that is a directory, everything reported is the
     * relativized path of a regular file below it whose name ends with "." and the extension.
     */
    lemma {:induction false} SchemasFindOnlyFiles(entries: Entries, cwd: seq<string>, traversal: seq<seq<string>>,
                                                  separator: char)
      requires TraversalCovers(entries, cwd, traversal) && IsDirectoryAt(entries, ResolveIn(cwd, schemaDirectory))
      ensures forall s :: s in SchemasOf(entries, cwd, traversal, separator) ==> exists p ::
        MatchingFileBelow(entries, ResolveIn(cwd, schemaDirectory), p, "." + schemaFileExtension) &&
        s == Relativize(p[|ResolveIn(cwd, schemaDirectory)|..], separator)
    {
      var root := ResolveIn(cwd, schemaDirectory);
      var found := SchemasOf(entries, cwd, traversal, separator);
      forall s | s in found
        ensures exists p :: MatchingFileBelow(entries, root, p, "." + schemaFileExtension) && s == Relativize(p[|root|..], separator)
      {
        var rel := ReportedSchema(entries, cwd, traversal, separator, s);
        var p := root + rel;
        assert p[..|root|] == root && p[|root|..] == rel;
      }
    }

    /** A reported path comes from a visited schema: the schema directory itself, or an entry below it. */
    lemma ReportedSchema(entries: Entries, cwd: seq<string>, traversal: seq<seq<string>>, separator: char, s: string)
      returns (rel: seq<string>)
      requires TraversalCovers(entries, cwd, traversal) && s in SchemasOf(entries, cwd, traversal, separator)
      ensures s == Relativize(rel, separator)
      ensures rel == [] ==> !IsDirectoryAt(entries, ResolveIn(cwd, schemaDirectory))
      ensures rel == [] ==> EndsWith(Name(schemaDirectory), "." + schemaFileExtension)
      ensures rel != [] ==> IsDirectoryAt(entries, ResolveIn(cwd, schemaDirectory))
      ensures rel != [] ==>
        MatchingFileBelow(entries, ResolveIn(cwd, schemaDirectory), ResolveIn(cwd, schemaDirectory) + rel, "." + schemaFileExtension)
    {
      var found := SchemasOf(entries, cwd, traversal, separator);
      var k :| 0 <= k < |found| && found[k] == s;
      SchemasSound(entries, cwd, traversal, separator, k);
      var i :| 0 <= i < |traversal| && IsSchema(entries, cwd, traversal[i]) && s == Relativize(traversal[i], separator);
      rel := traversal[i];
      assert rel in traversal;
      ResolveExtended(cwd, schemaDirectory, rel);
      assert SchemaFile([]) == schemaDirectory;
      var root := ResolveIn(cwd, schemaDirectory);
      assert (root + rel)[..|root|] == root;
    }

    /**
     * A schema directory that is not a directory is visited alone: it is reported, as the empty
     * path, iff its own name ends with "." and the extension.
     */
    lemma {:induction false} SchemasOfRootOnly(entries: Entries, cwd: seq<string>, traversal: seq<seq<string>>, separator: char)
      requires TraversalCovers(entries, cwd, traversal) && !IsDirectoryAt(entries, ResolveIn(cwd, schemaDirectory))
      ensures forall s :: s in SchemasOf(entries, cwd, traversal, separator) <==>
        s == "" && EndsWith(Name(schemaDirectory), "." + schemaFileExtension)
    {
      var found := SchemasOf(entries, cwd, traversal, separator);
      assert SchemaFile([]) == schemaDirectory;
      assert Relativize([], separator) == "";
      forall s | s in found
        ensures s == "" && EndsWith(Name(schemaDirectory), "." + schemaFileExtension)
      {
        var rel := ReportedSchema(entries, cwd, traversal, separator, s);
      }
      if EndsWith(Name(schemaDirectory), "." + schemaFileExtension) {
        assert [] in traversal;
        var i :| 0 <= i < |traversal| && traversal[i] == [];
        SchemasComplete(entries, cwd, traversal, separator, i);
      }
    }

    /** Every schema `getAllSchemas()` reports ends with "." and the extension (when that has no '\\'). */
    lemma {:induction false} SchemasKeepExtension(entries: Entries, cwd: seq<string>, traversal: seq<seq<string>>,
                                                  separator: char)
      requires '\\' !in schemaFileExtension
      requires forall i :: 0 <= i < |traversal| ==> traversal[i] != []
      ensures forall k :: 0 <= k < |SchemasOf(entries, cwd, traversal, separator)| ==>
        EndsWith(SchemasOf(entries, cwd, traversal, separator)[k], "." + schemaFileExtension)
      decreases |traversal|
    {
      if traversal != [] {
        var init := traversal[..|traversal| - 1];
        var last := traversal[|traversal| - 1];
        SchemasKeepExtension(entries, cwd, init, separator);
        if IsSchema(entries, cwd, last) {
          assert Name(SchemaFile(last)) == last[|last| - 1];
          RelativizeKeepsSuffix(last, separator, "." + schemaFileExtension);
        }
      }
    }

    /** `getAllSchemas()`: the traversal loop. */
    method GetAllSchemas(fs: FileSystem, traversal: seq<seq<string>>, separator: char) returns (allSchemas: seq<string>)
      ensures allSchemas == SchemasOf(fs.entries, fs.cwd, traversal, separator)
      ensures TraversalCovers(fs.entries, fs.cwd, traversal) && IsDirectoryAt(fs.entries, ResolveIn(fs.cwd, schemaDirectory)) ==>
        forall p :: MatchingFileBelow(fs.entries, ResolveIn(fs.cwd, schemaDirectory), p, "." + schemaFileExtension) ==>
          Relativize(p[|ResolveIn(fs.cwd, schemaDirectory)|..], separator) in allSchemas
      ensures TraversalCovers(fs.entries, fs.cwd, traversal) && IsDirectoryAt(fs.entries, ResolveIn(fs.cwd, schemaDirectory)) ==>
        forall s :: s in allSchemas ==> exists p ::
          MatchingFileBelow(fs.entries, ResolveIn(fs.cwd, schemaDirectory), p, "." + schemaFileExtension) && s == Relativize(p[|ResolveIn(fs.cwd, schemaDirectory)|..], separator)
      ensures TraversalCovers(fs.entries, fs.cwd, traversal) && !IsDirectoryAt(fs.entries, ResolveIn(fs.cwd, schemaDirectory)) ==>
        forall s :: s in allSchemas <==> s == "" && EndsWith(Name(schemaDirectory), "." + schemaFileExtension)
    {
      allSchemas := [];
      var i := 0;
      while i < |traversal|
        invariant 0 <= i <= |traversal|
        invariant allSchemas == SchemasOf(fs.entries, fs.cwd, traversal[..i], separator)
      {
        assert traversal[..i + 1][..i] == traversal[..i];
        if IsSchema(fs.entries, fs.cwd, traversal[i]) {
          allSchemas := allSchemas + [Relativize(traversal[i], separator)];
        }
        i := i + 1;
      }
      assert traversal[..i] == traversal;
      if TraversalCovers(fs.entries, fs.cwd, traversal) {
        if IsDirectoryAt(fs.entries, ResolveIn(fs.cwd, schemaDirectory)) {
          SchemasFindEveryFile(fs.entries, fs.cwd, traversal, separator);
          SchemasFindOnlyFiles(fs.entries, fs.cwd, traversal, separator);
        } else {
          SchemasOfRootOnly(fs.entries, fs.cwd, traversal, separator);
        }
      }
    }

    /** The schema list the builder receives: the configured array verbatim, or every discovered schema. */
    function SchemaList(entries: Entries, cwd: seq<string>, traversal: seq<seq<string>>, separator: char): seq<string>
    {
      if schemas.Some? then schemas.value else SchemasOf(entries, cwd, traversal, separator)
    }

    /** `getSchemas()`. */
    method GetSchemas(fs: FileSystem, traversal: seq<seq<string>>, separator: char) returns (r: seq<string>)
      ensures schemas.Some? ==> r == schemas.value
      ensures schemas.None? ==> r == SchemasOf(fs.entries, fs.cwd, traversal, separator)
      ensures schemas.None? && TraversalCovers(fs.entries, fs.cwd, traversal) && IsDirectoryAt(fs.entries, ResolveIn(fs.cwd, schemaDirectory)) ==>
        forall p :: MatchingFileBelow(fs.entries, ResolveIn(fs.cwd, schemaDirectory), p, "." + schemaFileExtension) ==>
          Relativize(p[|ResolveIn(fs.cwd, schemaDirectory)|..], separator) in r
      ensures schemas.None? && TraversalCovers(fs.entries, fs.cwd, traversal) && IsDirectoryAt(fs.entries, ResolveIn(fs.cwd, schemaDirectory)) ==>
        forall s :: s in r ==> exists p ::
          MatchingFileBelow(fs.entries, ResolveIn(fs.cwd, schemaDirectory), p, "." + schemaFileExtension) && s == Relativize(p[|ResolveIn(fs.cwd, schemaDirectory)|..], separator)
      ensures schemas.None? && TraversalCovers(fs.entries, fs.cwd, traversal) && !IsDirectoryAt(fs.entries, ResolveIn(fs.cwd, schemaDirectory)) ==>
        forall s :: s in r <==> s == "" && EndsWith(Name(schemaDirectory), "." + schemaFileExtension)
    {
      if schemas.None? {
        r := GetAllSchemas(fs, traversal, separator);
      } else {
        r := schemas.value;
      }
    }

    /** `getImportDirectories()`: an empty list for a missing array, else the array's elements in order. */
    function GetImportDirectories(): (r: seq<Option<FilePath>>)
      ensures importDirectories.None? ==> r == []
      ensures importDirectories.Some? ==> r == importDirectories.value
    {
      if importDirectories.None? then [] else importDirectories.value
    }

    /** `copyResource(source, target)`; every failure becomes the exception naming the work directory. */
    method CopyResource(fs: FileSystem, source: Option<N.Url>, target: FilePath, open: N.Url -> Option<seq<bv8>>)
      returns (r: Result<FilePath, MojoFault>)
      modifies fs
      ensures var c := CopyOf(old(fs.entries), fs.cwd, source, target, open);
        fs.entries == c.0 &&
        (c.1.Some? ==> r == Success(c.1.value)) && (c.1.None? ==> r == Failure(CopyFailed(workDirectory)))
    {
      if source.None? {
        return Failure(CopyFailed(workDirectory));
      }
      var fileName := Name(Parse(source.value));
      var targetFile := Child(target, fileName);
      var bytes := open(source.value);
      if bytes.None? {
        return Failure(CopyFailed(workDirectory));
      }
      var dest := fs.Resolve(targetFile);
      if !CanWrite(fs.entries, dest) {
        return Failure(CopyFailed(workDirectory));
      }
      fs.entries := Install(fs.entries, dest, bytes.value);
      r := Success(targetFile);
    }

    /** The three `copyResource` calls of `execute()`, in argument order. */
    method StageNatives(fs: FileSystem, info: N.NativesInfo, open: N.Url -> Option<seq<bv8>>)
      returns (r: Result<seq<FilePath>, MojoFault>)
      modifies fs
      ensures var s := StagedOf(old(fs.entries), fs.cwd, info, open, workDirectory);
        fs.entries == s.0 &&
        (s.1.Some? ==> r == Success(s.1.value)) && (s.1.None? ==> r == Failure(CopyFailed(workDirectory)))
    {
      var capnp := CopyResource(fs, info.capnpUrl, workDirectory, open);
      if capnp.Failure? {
        return Failure(capnp.error);
      }
      var plugin := CopyResource(fs, info.capnpcJavaUrl, workDirectory, open);
      if plugin.Failure? {
        return Failure(plugin.error);
      }
      var schema := CopyResource(fs, info.capnpJavaSchemaUrl, workDirectory, open);
      if schema.Failure? {
        return Failure(schema.error);
      }
      r := Success([capnp.value, plugin.value, schema.value]);
    }

    /** The builder chain of `execute()` up to `build()`: every setting given, the lists filled. */
    method Configure(natives: seq<FilePath>, schemaList: seq<string>) returns (builder: OrgCompiler.Builder)
      requires |natives| == 3
      ensures fresh(builder) && fresh(builder.importDirectories) && fresh(builder.schemas)
      ensures builder.outputDirectory == Some(outputDirectory) && builder.schemaDirectory == Some(schemaDirectory)
      ensures builder.workDirectory == Some(workDirectory) && builder.capnpFile == Some(natives[0])
      ensures builder.capnpcJavaFile == Some(natives[1]) && builder.capnpJavaSchemaFile == Some(natives[2])
      ensures builder.schemas.elems == schemaList && builder.importDirectories.elems == GetImportDirectories()
      ensures builder.verbose == verbose
    {
      builder := new OrgCompiler.Builder();
      builder.SetOutputDirectory(Some(outputDirectory));
      builder.SetSchemaDirectory(Some(schemaDirectory));
      builder.SetWorkDirectory(Some(workDirectory));
      builder.SetCapnpFile(Some(natives[0]));
      builder.SetCapnpcJavaFile(Some(natives[1]));
      builder.SetCapnpJavaSchemaFile(Some(natives[2]));
      builder.AddSchemas(schemaList);
      builder.AddImportDirectories(GetImportDirectories());
      builder.SetVerbose(verbose);
    }

    /** `build()` on the configured builder: the configuration is checked before anything is touched. */
    method BuildCompiler(fs: FileSystem, natives: seq<FilePath>, schemaList: seq<string>)
      returns (r: Result<OrgCompiler.Compiler, MojoFault>)
      requires |natives| == 3
      modifies fs
      ensures schemaList == [] && AllSome(GetImportDirectories()) ==>
        r == Failure(Rejected(OrgCompiler.NoSchema)) && unchanged(fs)
      ensures r.Failure? && r.error.Rejected? && (r.error.failure.Mandatory? || r.error.failure.NoSchema?) ==> unchanged(fs)
      ensures r.Success? ==> r.value.schemas.elems == schemaList && r.value.verbose == verbose
      ensures r.Success? ==> r.value.command.workDirectory == workDirectory
    {
      var builder := Configure(natives, schemaList);
      ghost var named := builder.Settings();
      assert forall i :: 0 <= i < 6 ==> named[i].1.Some?;
      assert AllSome(GetImportDirectories()) ==> forall i :: 0 <= i < |named| ==> named[i].1.Some?;
      var built := builder.Build(fs);
      if built.Failure? {
        return Failure(Rejected(built.error));
      }
      r := Success(built.value);
    }

    /**
     * `execute()` after the natives manager has answered: the output directory becomes a compile
     * source root, the work directory is made, the three natives are copied into it, and only then
     * is the builder validated, so a rejected configuration leaves the natives in place.
     */
    method Generate(fs: FileSystem, roots: JList<string>, info: Option<N.NativesInfo>, open: N.Url -> Option<seq<bv8>>,
                    traversal: seq<seq<string>>, separator: char)
      returns (r: Result<OrgCompiler.Compiler, MojoFault>)
      modifies fs, roots
      ensures Absolute(fs.cwd, outputDirectory) in roots.elems
      ensures forall x :: x in old(roots.elems) ==> x in roots.elems
      ensures var made := MkdirsOf(old(fs.entries), ResolveIn(fs.cwd, workDirectory));
        (info.None? ==> r == Failure(NullPointer) && fs.entries == made) &&
        (info.Some? ==>
          var staged := StagedOf(made, fs.cwd, info.value, open, workDirectory);
          (staged.1.None? ==> r == Failure(CopyFailed(workDirectory)) && fs.entries == staged.0) &&
          (staged.1.Some? && SchemaList(staged.0, fs.cwd, traversal, separator) == [] && AllSome(GetImportDirectories()) ==>
            r == Failure(Rejected(OrgCompiler.NoSchema)) && fs.entries == staged.0))
    {
      var root := fs.AbsolutePath(outputDirectory);
      if root !in roots.elems {
        roots.Add(root);
      }
      fs.Mkdirs(workDirectory);
      if info.None? {
        return Failure(NullPointer);
      }
      var natives := StageNatives(fs, info.value, open);
      if natives.Failure? {
        return Failure(natives.error);
      }
      var schemaList := GetSchemas(fs, traversal, separator);
      r := BuildCompiler(fs, natives.value, schemaList);
    }
  }
}
