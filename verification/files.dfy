/**
 * `java.io.File` paths and the part of the host filesystem the plugin touches: regular files with
 * their bytes and executable bit, and directories. Paths are kept the way `java.io.File` keeps them
 * after normalisation (an absolute flag and the non-empty names between separators); the filesystem
 * is keyed by absolute name lists. The host separator is `/`.
 */
module Files {
  import opened Wrappers
  import opened Strings

  /** A `java.io.File`: whether it starts at the root, and its names. */
  datatype FilePath = FilePath(absolute: bool, names: seq<string>)

  /** The names of a path string: the non-empty runs between `/` separators, `cur` being the run read so far. */
  function NamesFrom(s: string, cur: string): (r: seq<string>)
    requires '/' !in cur
    ensures forall k :: 0 <= k < |r| ==> r[k] != "" && '/' !in r[k]
  {
    if s == [] then (if cur == "" then [] else [cur])
    else if s[0] == '/' then (if cur == "" then NamesFrom(s[1..], "") else [cur] + NamesFrom(s[1..], ""))
    else NamesFrom(s[1..], cur + [s[0]])
  }

  /** The names of a path string, as `java.io.File` normalises it (repeated and trailing separators vanish). */
  function Names(s: string): (r: seq<string>)
    ensures forall k :: 0 <= k < |r| ==> r[k] != "" && '/' !in r[k]
  {
    NamesFrom(s, "")
  }

  /** A run without separators is read as one name. */
  lemma {:induction false} NamesFromPlain(s: string, cur: string)
    requires '/' !in cur && '/' !in s && cur + s != ""
    ensures NamesFrom(s, cur) == [cur + s]
  {
    if s == [] {
      assert cur + s == cur;
    } else {
      assert s[0] in s && s == [s[0]] + s[1..];
      assert '/' !in s[1..] && '/' !in cur + [s[0]];
      NamesFromPlain(s[1..], cur + [s[0]]);
      assert cur + [s[0]] + s[1..] == cur + s;
    }
  }

  /** A name followed by a separator is read off as one name, and reading resumes after the separator. */
  lemma {:induction false} NamesFromSeparator(a: string, rest: string, cur: string)
    requires '/' !in cur && '/' !in a && cur + a != ""
    ensures NamesFrom(a + "/" + rest, cur) == [cur + a] + NamesFrom(rest, "")
  {
    var s := a + "/" + rest;
    if a == [] {
      assert s == "/" + rest && s[1..] == rest;
      assert cur + a == cur;
    } else {
      assert a[0] in a && '/' !in a[1..];
      assert s[0] == a[0] && s[1..] == a[1..] + "/" + rest;
      NamesFromSeparator(a[1..], rest, cur + [a[0]]);
      assert cur + [a[0]] + a[1..] == cur + a;
    }
  }

  /** Names joined with '/' read back as the same names. */
  lemma {:induction false} NamesJoin(names: seq<string>)
    requires forall k :: 0 <= k < |names| ==> names[k] != "" && '/' !in names[k]
    ensures Names(Join(names, '/')) == names
  {
    if |names| == 1 {
      NamesFromPlain(names[0], "");
      assert "" + names[0] == names[0];
    } else if |names| > 1 {
      NamesJoin(names[1..]);
      NamesFromSeparator(names[0], Join(names[1..], '/'), "");
      assert "" + names[0] == names[0];
      assert names[0] + ['/'] + Join(names[1..], '/') == names[0] + "/" + Join(names[1..], '/');
    }
  }

  /** `new File(s)` for a path string `s`. */
  function Parse(s: string): FilePath
  {
    FilePath(StartsWith(s, "/"), Names(s))
  }

  /** `File.getPath()`: the normalised path string. */
  function PathString(p: FilePath): string
  {
    (if p.absolute then "/" else "") + Join(p.names, '/')
  }

  /**
   * `new File(dir, name)`: `name` resolved against `dir`. An empty relative `dir` resolves against
   * the root, as `java.io.File` does on a Unix host.
   */
  function Child(dir: FilePath, name: string): (r: FilePath)
    ensures r.names == dir.names + Names(name)
    ensures r.absolute == (dir.absolute || dir.names == [])
  {
    if !dir.absolute && dir.names == [] then FilePath(true, Names(name))
    else FilePath(dir.absolute, dir.names + Names(name))
  }

  /**
   * `File.getParentFile()`: the path without its last name; `null` for the root and for a relative
   * path of a single name.
   */
  function Parent(p: FilePath): (r: Option<FilePath>)
    ensures r.None? <==> p.names == [] || (!p.absolute && |p.names| == 1)
    ensures r.Some? ==> r.value.absolute == p.absolute && r.value.names + [p.names[|p.names| - 1]] == p.names
  {
    if p.names == [] || (!p.absolute && |p.names| == 1) then None
    else Some(FilePath(p.absolute, p.names[..|p.names| - 1]))
  }

  /** `File.getName()`: the last name, or "" for a path without names. */
  function Name(p: FilePath): string
  {
    if p.names == [] then "" else p.names[|p.names| - 1]
  }

  /** An entry of the filesystem. */
  datatype Node = Directory | RegularFile(content: seq<bv8>, executable: bool)

  /** The filesystem: absolute name lists to entries; the root `[]` is an implicit directory. */
  type Entries = map<seq<string>, Node>

  predicate IsDirectoryAt(entries: Entries, names: seq<string>)
  {
    names == [] || (names in entries && entries[names].Directory?)
  }

  predicate IsFileAt(entries: Entries, names: seq<string>)
  {
    names in entries && entries[names].RegularFile?
  }

  /** The non-root ancestors of `names`, itself included. */
  function Prefixes(names: seq<string>): set<seq<string>>
  {
    set k | 1 <= k <= |names| :: names[..k]
  }

  /** Some ancestor of `names` (or `names` itself) is a regular file, so no directory can be made there. */
  predicate BlockedByFile(entries: Entries, names: seq<string>)
  {
    exists k | 1 <= k <= |names| :: IsFileAt(entries, names[..k])
  }

  /**
   * `File.mkdirs()`: every missing ancestor of `names`, and `names` itself, becomes a directory;
   * nothing changes when a regular file stands in the way.
   */
  function MkdirsOf(entries: Entries, names: seq<string>): (r: Entries)
    ensures forall q :: q in entries ==> q in r && r[q] == entries[q]
    ensures forall q :: q in r && q !in entries ==> q in Prefixes(names) && r[q] == Directory
    ensures !BlockedByFile(entries, names) ==> IsDirectoryAt(r, names)
    ensures !BlockedByFile(entries, names) ==> forall k :: 1 <= k <= |names| ==> names[..k] in r
  {
    if BlockedByFile(entries, names) then entries
    else
      var made := map q | q in Prefixes(names) && q !in entries :: Directory;
      assert names[..|names|] == names;
      assert names != [] ==> names[..|names|] in Prefixes(names);
      entries + made
  }

  /** `mkdirs()` on a path whose every ancestor already exists changes nothing. */
  lemma MkdirsStable(entries: Entries, names: seq<string>)
    requires forall k :: 1 <= k <= |names| ==> names[..k] in entries
    ensures MkdirsOf(entries, names) == entries
  {
    if !BlockedByFile(entries, names) {
      var made := map q | q in Prefixes(names) && q !in entries :: Directory;
      assert made == map[];
    }
  }

  /** `p` lies strictly below `root`. */
  predicate Under(p: seq<string>, root: seq<string>)
  {
    |p| > |root| && p[..|root|] == root
  }

  lemma RebaseInjective(root: seq<string>, dst: seq<string>, p1: seq<string>, p2: seq<string>)
    requires Under(p1, root) && Under(p2, root) && dst + p1[|root|..] == dst + p2[|root|..]
    ensures p1 == p2
  {
    assert p1[|root|..] == (dst + p1[|root|..])[|dst|..];
    assert p2[|root|..] == (dst + p2[|root|..])[|dst|..];
    assert p1 == p1[..|root|] + p1[|root|..];
    assert p2 == p2[..|root|] + p2[|root|..];
  }

  /**
   * A recursive directory copy can run: the source is a directory other than the destination,
   * and the destination can be made (both libraries throw an `IOException` when the two are the same).
   */
  predicate CanMirror(entries: Entries, src: seq<string>, dst: seq<string>)
  {
    src != [] && src != dst && IsDirectoryAt(entries, src) && !BlockedByFile(entries, dst)
  }

  /**
   * A recursive directory copy (plexus `copyDirectoryStructure`, commons-io `copyDirectory`):
   * `dst` is made, and every entry below `src` reappears at the same place below `dst`.
   */
  function MirrorOf(entries: Entries, src: seq<string>, dst: seq<string>): (r: Entries)
    ensures IsDirectoryAt(entries, src) && !BlockedByFile(entries, dst) ==>
      forall p :: p in entries && Under(p, src) ==> dst + p[|src|..] in r && r[dst + p[|src|..]] == entries[p]
  {
    MkdirsOf(entries, dst) + Rebased(entries, src, dst)
  }

  /** The entries strictly below `src`, moved to the same place below `dst`. */
  function Rebased(entries: Entries, src: seq<string>, dst: seq<string>): (r: Entries)
    ensures forall p :: p in entries && Under(p, src) ==> dst + p[|src|..] in r && r[dst + p[|src|..]] == entries[p]
  {
    forall p1, p2 | p1 in entries && p2 in entries && Under(p1, src) && Under(p2, src) && dst + p1[|src|..] == dst + p2[|src|..]
      ensures p1 == p2
    {
      RebaseInjective(src, dst, p1, p2);
    }
    map p | p in entries && Under(p, src) :: dst + p[|src|..] := entries[p]
  }

  /** A regular file strictly below `root` whose name ends with `suffix`: what a schema discovery must find. */
  predicate MatchingFileBelow(entries: Entries, root: seq<string>, p: seq<string>, suffix: string)
  {
    p in entries && Under(p, root) && entries[p].RegularFile? && EndsWith(p[|p| - 1], suffix)
  }

  /** A path whose names extend a directory's names resolves to the directory's absolute names extended alike. */
  lemma ResolveExtended(cwd: seq<string>, dir: FilePath, rel: seq<string>)
    ensures ResolveIn(cwd, FilePath(dir.absolute, dir.names + rel)) == ResolveIn(cwd, dir) + rel
  {
    if !dir.absolute {
      assert cwd + (dir.names + rel) == (cwd + dir.names) + rel;
    }
  }

  /** A `FileOutputStream` can be opened on `dest`: its parent is a directory and `dest` is not one. */
  predicate CanWrite(entries: Entries, dest: seq<string>)
  {
    dest != [] && IsDirectoryAt(entries, dest[..|dest| - 1]) && !IsDirectoryAt(entries, dest)
  }

  /** Opening a `FileOutputStream`: `dest` becomes an empty regular file, keeping an executable bit it had. */
  function Truncate(entries: Entries, dest: seq<string>): (r: Entries)
    ensures dest in r && r[dest].RegularFile? && r[dest].content == []
    ensures forall q :: q != dest ==> (q in r <==> q in entries) && (q in r ==> r[q] == entries[q])
  {
    entries[dest := RegularFile([], IsFileAt(entries, dest) && entries[dest].executable)]
  }

  /** The outcome of staging bytes into a file: copy them, then `setExecutable(true)`. */
  function Install(entries: Entries, dest: seq<string>, bytes: seq<bv8>): (r: Entries)
    ensures dest in r && r[dest] == RegularFile(bytes, true)
    ensures forall q :: q != dest ==> (q in r <==> q in entries) && (q in r ==> r[q] == entries[q])
  {
    entries[dest := RegularFile(bytes, true)]
  }

  /** The absolute names `p` denotes when relative paths resolve against `cwd`. */
  function ResolveIn(cwd: seq<string>, p: FilePath): seq<string>
  {
    if p.absolute then p.names else cwd + p.names
  }

  /** `File.getAbsolutePath()` with `user.dir` equal to `cwd`. */
  function Absolute(cwd: seq<string>, p: FilePath): string
  {
    PathString(FilePath(true, ResolveIn(cwd, p)))
  }

  /** `File.getAbsolutePath()` of every path, in order. */
  function AbsoluteAll(cwd: seq<string>, ps: seq<FilePath>): (r: seq<string>)
    ensures |r| == |ps| && forall i :: 0 <= i < |ps| ==> r[i] == Absolute(cwd, ps[i])
  {
    if ps == [] then [] else [Absolute(cwd, ps[0])] + AbsoluteAll(cwd, ps[1..])
  }

  /** Appending a path appends its absolute path. */
  lemma AbsoluteAllSnoc(cwd: seq<string>, ps: seq<FilePath>, p: FilePath)
    ensures AbsoluteAll(cwd, ps + [p]) == AbsoluteAll(cwd, ps) + [Absolute(cwd, p)]
  {
  }

  /** `File.getPath()` of every path, in order. */
  function PathStrings(ps: seq<FilePath>): (r: seq<string>)
    ensures |r| == |ps| && forall i :: 0 <= i < |ps| ==> r[i] == PathString(ps[i])
  {
    if ps == [] then [] else [PathString(ps[0])] + PathStrings(ps[1..])
  }

  /** Appending a path appends its path string. */
  lemma PathStringsSnoc(ps: seq<FilePath>, p: FilePath)
    ensures PathStrings(ps + [p]) == PathStrings(ps) + [PathString(p)]
  {
  }

  /** The host filesystem, and the directory (`user.dir`) relative paths resolve against. */
  class FileSystem {
    const cwd: seq<string>
    var entries: Entries

    constructor (cwd: seq<string>, entries: Entries)
      ensures this.cwd == cwd && this.entries == entries
    {
      this.cwd := cwd;
      this.entries := entries;
    }

    /** The absolute names `p` denotes. */
    function Resolve(p: FilePath): seq<string>
    {
      ResolveIn(cwd, p)
    }

    /** `File.getAbsolutePath()`. */
    function AbsolutePath(p: FilePath): string
    {
      Absolute(cwd, p)
    }

    /** `File.isFile()`. */
    predicate IsFile(p: FilePath)
      reads this
    {
      IsFileAt(entries, Resolve(p))
    }

    /** `File.isDirectory()`. */
    predicate IsDirectory(p: FilePath)
      reads this
    {
      IsDirectoryAt(entries, Resolve(p))
    }

    /** `File.mkdirs()`. */
    method Mkdirs(p: FilePath)
      modifies this
      ensures entries == MkdirsOf(old(entries), Resolve(p))
    {
      entries := MkdirsOf(entries, Resolve(p));
    }

    /** A recursive directory copy; `false` where the library throws an `IOException`. */
    method CopyDirectory(src: FilePath, dst: FilePath) returns (ok: bool)
      modifies this
      ensures ok == CanMirror(old(entries), Resolve(src), Resolve(dst))
      ensures entries == if ok then MirrorOf(old(entries), Resolve(src), Resolve(dst)) else old(entries)
    {
      ok := CanMirror(entries, Resolve(src), Resolve(dst));
      if ok {
        entries := MirrorOf(entries, Resolve(src), Resolve(dst));
      }
    }
  }
}
