/**
 * The `generate` goal of the `com.expretio...capnproto` variant (`CapnProtoMojo`): which schemas it
 * hands to the compiler, found by a recursive listing of the schema base directory.
 */
module CapnprotoMojo {
  import opened Strings
  import opened Wrappers
  import opened Files

  /** Why `getAllSchemas()` throws. */
  datatype ListingFault =
    | NotADirectory(directory: FilePath)  // IllegalArgumentException from `FileUtils.listFiles`: "Parameter 'directory' is not a directory: ..."

  /** `CapnProtoMojo` with its configured parameters. */
  class CapnProtoMojo {
    const outputDirectory: FilePath
    const schemaBaseDirectory: FilePath
    const workDirectory: FilePath
    const schemaFileExtension: string
    const schemas: Option<seq<string>>
    const verbose: bool

    constructor (outputDirectory: FilePath, schemaBaseDirectory: FilePath, workDirectory: FilePath,
                 schemaFileExtension: string, schemas: Option<seq<string>>, verbose: bool)
      ensures this.outputDirectory == outputDirectory && this.schemaBaseDirectory == schemaBaseDirectory
      ensures this.workDirectory == workDirectory && this.schemaFileExtension == schemaFileExtension
      ensures this.schemas == schemas && this.verbose == verbose
    {
      this.outputDirectory := outputDirectory;
      this.schemaBaseDirectory := schemaBaseDirectory;
      this.workDirectory := workDirectory;
      this.schemaFileExtension := schemaFileExtension;
      this.schemas := schemas;
      this.verbose := verbose;
    }

    /** The file the listing reaches through the names `rel` below the schema base directory. */
    function SchemaFile(rel: seq<string>): FilePath
    {
      FilePath(schemaBaseDirectory.absolute, schemaBaseDirectory.names + rel)
    }

    /** The filter `getAllSchemas()` builds: the name ends with "." and the extension, and it is a regular file. */
    predicate Accepted(entries: Entries, cwd: seq<string>, rel: seq<string>): (r: bool)
      ensures r ==> !IsDirectoryAt(entries, ResolveIn(cwd, SchemaFile(rel))) && ResolveIn(cwd, SchemaFile(rel)) in entries
    {
      EndsWith(Name(SchemaFile(rel)), "." + schemaFileExtension) && IsFileAt(entries, ResolveIn(cwd, SchemaFile(rel)))
    }

    /**
     * `FileUtils.listFiles` with that filter, recursing into every directory, over a listing given as
     * the names below the schema base directory of every entry it visits: the accepted ones, in order.
     */
    function Listed(entries: Entries, cwd: seq<string>, listing: seq<seq<string>>): (r: seq<seq<string>>)
      ensures |r| <= |listing|
      ensures forall k :: 0 <= k < |r| ==> Accepted(entries, cwd, r[k]) && r[k] in listing
      decreases |listing|
    {
      if listing == [] then []
      else
        var init := listing[..|listing| - 1];
        var last := listing[|listing| - 1];
        var before := Listed(entries, cwd, init);
        assert forall k :: 0 <= k < |before| ==> before[k] in listing by {
          assert forall x :: x in init ==> x in listing;
        }
        before + (if Accepted(entries, cwd, last) then [last] else [])
    }

    /** Every accepted entry of the listing is kept. */
    lemma {:induction false} ListedComplete(entries: Entries, cwd: seq<string>, listing: seq<seq<string>>, i: int)
      requires 0 <= i < |listing| && Accepted(entries, cwd, listing[i])
      ensures listing[i] in Listed(entries, cwd, listing)
      decreases |listing|
    {
      if i < |listing| - 1 {
        ListedComplete(entries, cwd, listing[..|listing| - 1], i);
      }
    }

    /**
     * The listing `FileUtils.listFiles` walks with `TrueFileFilter`, recursing into every directory:
     * it visits exactly the entries strictly below the schema base directory.
     */
    ghost predicate ListingCovers(entries: Entries, cwd: seq<string>, listing: seq<seq<string>>)
    {
      forall rel :: rel in listing <==> rel != [] && ResolveIn(cwd, schemaBaseDirectory) + rel in entries
    }

    /**
     * Over a listing of the whole tree, the accepted files are exactly the regular files below the
     * schema base directory whose name ends with "." and the extension.
     */
    lemma {:induction false} ListedIsEverySchema(entries: Entries, cwd: seq<string>, listing: seq<seq<string>>)
      requires ListingCovers(entries, cwd, listing)
      ensures forall p :: MatchingFileBelow(entries, ResolveIn(cwd, schemaBaseDirectory), p, "." + schemaFileExtension) ==>
        p[|ResolveIn(cwd, schemaBaseDirectory)|..] in Listed(entries, cwd, listing)
      ensures forall rel :: rel in Listed(entries, cwd, listing) ==>
        MatchingFileBelow(entries, ResolveIn(cwd, schemaBaseDirectory), ResolveIn(cwd, schemaBaseDirectory) + rel,
                          "." + schemaFileExtension)
    {
      var root := ResolveIn(cwd, schemaBaseDirectory);
      var found := Listed(entries, cwd, listing);
      forall rel | rel in found
        ensures MatchingFileBelow(entries, root, root + rel, "." + schemaFileExtension)
      {
        var k :| 0 <= k < |found| && found[k] == rel;
        assert Accepted(entries, cwd, rel) && rel in listing;
        ResolveExtended(cwd, schemaBaseDirectory, rel);
        assert (root + rel)[..|root|] == root;
      }
      forall p | MatchingFileBelow(entries, root, p, "." + schemaFileExtension)
        ensures p[|root|..] in found
      {
        var rel := p[|root|..];
        assert root + rel == p;
        ResolveExtended(cwd, schemaBaseDirectory, rel);
        var i :| 0 <= i < |listing| && listing[i] == rel;
        ListedComplete(entries, cwd, listing, i);
      }
    }

    /** `relativize(files)`: each file's path relative to the schema base directory, rendered with the host separator. */
    function RelativePaths(files: seq<seq<string>>, separator: char): (r: seq<string>)
      ensures |r| == |files|
      ensures forall i :: 0 <= i < |files| ==> r[i] == Join(files[i], separator)
    {
      if files == [] then [] else [Join(files[0], separator)] + RelativePaths(files[1..], separator)
    }

    lemma RelativePathsSnoc(files: seq<seq<string>>, file: seq<string>, separator: char)
      ensures RelativePaths(files + [file], separator) == RelativePaths(files, separator) + [Join(file, separator)]
    {
    }

    /**
     * On a Unix host each relative path, resolved against the schema base directory, is the file it
     * came from (names carry no separator and are not empty, as on a real filesystem).
     */
    lemma RelativePathResolvesBack(files: seq<seq<string>>, i: int)
      requires 0 <= i < |files|
      requires forall k :: 0 <= k < |files[i]| ==> files[i][k] != "" && '/' !in files[i][k]
      requires schemaBaseDirectory.absolute || schemaBaseDirectory.names != []
      ensures Child(schemaBaseDirectory, RelativePaths(files, '/')[i]) == SchemaFile(files[i])
    {
      NamesJoin(files[i]);
    }

    /** `relativize(files)`: the loop. */
    method Relativize(files: seq<seq<string>>, separator: char) returns (paths: seq<string>)
      ensures paths == RelativePaths(files, separator)
    {
      paths := [];
      var i := 0;
      while i < |files|
        invariant 0 <= i <= |files|
        invariant paths == RelativePaths(files[..i], separator)
      {
        RelativePathsSnoc(files[..i], files[i], separator);
        assert files[..i + 1] == files[..i] + [files[i]];
        paths := paths + [Join(files[i], separator)];
        i := i + 1;
      }
      assert files[..i] == files;
    }

    /**
     * `getAllSchemas()`: the accepted files of the listing, relativized; `FileUtils.listFiles` rejects
     * a schema base directory that is missing or not a directory.
     */
    method GetAllSchemas(fs: FileSystem, listing: seq<seq<string>>, separator: char)
      returns (r: Result<seq<string>, ListingFault>)
      ensures !IsDirectoryAt(fs.entries, fs.Resolve(schemaBaseDirectory)) ==>
        r == Failure(NotADirectory(schemaBaseDirectory))
      ensures IsDirectoryAt(fs.entries, fs.Resolve(schemaBaseDirectory)) ==>
        r == Success(RelativePaths(Listed(fs.entries, fs.cwd, listing), separator))
      ensures r.Success? && ListingCovers(fs.entries, fs.cwd, listing) ==>
        forall p :: MatchingFileBelow(fs.entries, fs.Resolve(schemaBaseDirectory), p, "." + schemaFileExtension) ==>
          Join(p[|fs.Resolve(schemaBaseDirectory)|..], separator) in r.value
      ensures r.Success? && ListingCovers(fs.entries, fs.cwd, listing) ==>
        forall i :: 0 <= i < |r.value| ==> exists rel ::
          MatchingFileBelow(fs.entries, fs.Resolve(schemaBaseDirectory), fs.Resolve(schemaBaseDirectory) + rel,
                            "." + schemaFileExtension) && r.value[i] == Join(rel, separator)
    {
      if !IsDirectoryAt(fs.entries, fs.Resolve(schemaBaseDirectory)) {
        return Failure(NotADirectory(schemaBaseDirectory));
      }
      if ListingCovers(fs.entries, fs.cwd, listing) {
        ListedIsEverySchema(fs.entries, fs.cwd, listing);
      }
      var paths := Relativize(Listed(fs.entries, fs.cwd, listing), separator);
      r := Success(paths);
    }

    /**
     * `getSchemas()`: the configured array verbatim and in order, else every discovered schema; it
     * fails exactly when no array is configured and the schema base directory is not a directory.
     */
    method GetSchemas(fs: FileSystem, listing: seq<seq<string>>, separator: char)
      returns (r: Result<seq<string>, ListingFault>)
      ensures r.Failure? <==> schemas.None? && !IsDirectoryAt(fs.entries, fs.Resolve(schemaBaseDirectory))
      ensures r.Failure? ==> r.error == NotADirectory(schemaBaseDirectory)
      ensures schemas.Some? ==> r == Success(schemas.value)
      ensures schemas.None? && r.Success? ==> r.value == RelativePaths(Listed(fs.entries, fs.cwd, listing), separator)
      ensures schemas.None? && r.Success? && ListingCovers(fs.entries, fs.cwd, listing) ==>
        forall p :: MatchingFileBelow(fs.entries, fs.Resolve(schemaBaseDirectory), p, "." + schemaFileExtension) ==>
          Join(p[|fs.Resolve(schemaBaseDirectory)|..], separator) in r.value
      ensures schemas.None? && r.Success? && ListingCovers(fs.entries, fs.cwd, listing) ==>
        forall i :: 0 <= i < |r.value| ==> exists rel ::
          MatchingFileBelow(fs.entries, fs.Resolve(schemaBaseDirectory), fs.Resolve(schemaBaseDirectory) + rel,
                            "." + schemaFileExtension) && r.value[i] == Join(rel, separator)
    {
      if schemas.None? {
        r := GetAllSchemas(fs, listing, separator);
      } else {
        r := Success(schemas.value);
      }
    }
  }
}
