/** The argument vector the compiler adapters hand to `capnp` before the schema name. */
module CommandLine {
  import opened Files

  /** One `-I<dir>` flag per import directory, in order. */
  function ImportFlags(imports: seq<string>): (r: seq<string>)
    ensures |r| == |imports|
    ensures forall i :: 0 <= i < |imports| ==> r[i] == "-I" + imports[i]
  {
    if imports == [] then [] else ["-I" + imports[0]] + ImportFlags(imports[1..])
  }

  /**
   * `<compiler> compile --verbose -o<plugin>:<output>` followed by the import flags: the vector is
   * the same whatever the adapter's own verbosity setting is.
   */
  function Prefix(compiler: string, plugin: string, output: string, imports: seq<string>): (r: seq<string>)
    ensures |r| == 4 + |imports|
    ensures r[0] == compiler && r[1] == "compile" && r[2] == "--verbose"
    ensures r[3] == "-o" + plugin + ":" + output
    ensures forall i :: 0 <= i < |imports| ==> r[4 + i] == "-I" + imports[i]
  {
    [compiler, "compile", "--verbose", "-o" + plugin + ":" + output] + ImportFlags(imports)
  }

  /** One more import directory adds one flag at the end. */
  lemma PrefixSnoc(compiler: string, plugin: string, output: string, imports: seq<string>, dir: string)
    ensures Prefix(compiler, plugin, output, imports + [dir]) == Prefix(compiler, plugin, output, imports) + ["-I" + dir]
  {
  }

  /** The prefix built from `File` objects, each written as its absolute path. */
  function BaseOf(cwd: seq<string>, compiler: FilePath, plugin: FilePath, output: FilePath, imports: seq<FilePath>)
    : (r: seq<string>)
    ensures |r| == 4 + |imports|
    ensures r[0] == Absolute(cwd, compiler) && r[1] == "compile" && r[2] == "--verbose"
    ensures r[3] == "-o" + Absolute(cwd, plugin) + ":" + Absolute(cwd, output)
    ensures forall i :: 0 <= i < |imports| ==> r[4 + i] == "-I" + Absolute(cwd, imports[i])
  {
    Prefix(Absolute(cwd, compiler), Absolute(cwd, plugin), Absolute(cwd, output), AbsoluteAll(cwd, imports))
  }
}
