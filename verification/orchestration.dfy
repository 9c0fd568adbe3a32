/**
 * Compiling a list of schemas one process at a time, stopping at the first failure: the loop of the
 * `compile()` methods, as a specification the adapters' loops are proved against.
 */
module Orchestration {
  import opened Wrappers
  import opened Files
  import opened Processes

  /** Why compiling one schema failed. */
  datatype SchemaFault =
    | ExitFault(schema: string, exit: int)          // the compiler exited with a non-zero value
    | LaunchFault(schema: string, cause: Outcome)   // `start()` threw, or `waitFor()` was interrupted

  /** The launch for one schema: the base vector with the schema appended. */
  function Launch(base: seq<string>, schema: string, dir: FilePath, io: StdIo): (inv: Invocation)
    ensures |inv.argv| == |base| + 1 && inv.argv[..|base|] == base && inv.argv[|base|] == schema
    ensures inv.directory == dir && inv.io == io
  {
    Invocation(base + [schema], dir, io)
  }

  /** The fault an outcome raises: none exactly for exit value 0. */
  function FaultOf(schema: string, o: Outcome): (r: Option<SchemaFault>)
    ensures r.None? <==> o == Exited(0)
    ensures r.Some? ==> r.value.schema == schema
    ensures r.Some? && o.Exited? ==> r.value == ExitFault(schema, o.code)
    ensures r.Some? && !o.Exited? ==> r.value == LaunchFault(schema, o)
  {
    match o
    case Exited(code) => if code == 0 then None else Some(ExitFault(schema, code))
    case _ => Some(LaunchFault(schema, o))
  }

  /** What a run of several schemas produced: the fault it stopped at, and every launch in order. */
  datatype Run = Run(fault: Option<SchemaFault>, launched: seq<Invocation>)

  /** `launched` happened before the run `r`. */
  function Prepend(launched: seq<Invocation>, r: Run): Run
  {
    Run(r.fault, launched + r.launched)
  }

  /** The launches of all of `schemas`, in order. */
  function Launches(base: seq<string>, schemas: seq<string>, dir: FilePath, io: StdIo): (r: seq<Invocation>)
    ensures |r| == |schemas| && forall j :: 0 <= j < |schemas| ==> r[j] == Launch(base, schemas[j], dir, io)
  {
    seq(|schemas|, j requires 0 <= j < |schemas| => Launch(base, schemas[j], dir, io))
  }

  /** Every schema up to `k` (excluded) compiles. */
  predicate AllSucceed(base: seq<string>, schemas: seq<string>, dir: FilePath, io: StdIo, run: Runner, k: int)
    requires 0 <= k <= |schemas|
  {
    forall j :: 0 <= j < k ==> run(Launch(base, schemas[j], dir, io)) == Exited(0)
  }

  /** Compile the schemas in order, one process each, stopping at the first fault. */
  function RunSchemas(base: seq<string>, schemas: seq<string>, dir: FilePath, io: StdIo, run: Runner): (r: Run)
    ensures |r.launched| <= |schemas|
    ensures r.fault.None? ==> |r.launched| == |schemas|
    ensures r.fault.Some? ==> r.launched != [] && r.fault.value.schema == schemas[|r.launched| - 1]
    decreases |schemas|
  {
    if schemas == [] then Run(None, [])
    else
      var inv := Launch(base, schemas[0], dir, io);
      var fault := FaultOf(schemas[0], run(inv));
      if fault.Some? then Run(fault, [inv])
      else Prepend([inv], RunSchemas(base, schemas[1..], dir, io, run))
  }

  /** A run succeeds exactly when every schema's process exits with 0, and then it launched all of them in order. */
  lemma {:induction false} RunSucceedsIff(base: seq<string>, schemas: seq<string>, dir: FilePath, io: StdIo, run: Runner)
    ensures RunSchemas(base, schemas, dir, io, run).fault.None? <==> AllSucceed(base, schemas, dir, io, run, |schemas|)
    ensures RunSchemas(base, schemas, dir, io, run).fault.None? ==>
      RunSchemas(base, schemas, dir, io, run).launched == Launches(base, schemas, dir, io)
    decreases |schemas|
  {
    if schemas != [] {
      var inv := Launch(base, schemas[0], dir, io);
      var tail := schemas[1..];
      RunSucceedsIff(base, tail, dir, io, run);
      if run(inv) == Exited(0) {
        assert forall j :: 1 <= j < |schemas| ==> schemas[j] == tail[j - 1];
        assert AllSucceed(base, tail, dir, io, run, |tail|) <==> AllSucceed(base, schemas, dir, io, run, |schemas|);
        if RunSchemas(base, schemas, dir, io, run).fault.None? {
          assert Launches(base, schemas, dir, io) == [inv] + Launches(base, tail, dir, io);
        }
      }
    }
  }

  /**
   * When the schemas before `k` compile and schema `k` does not, the run reports schema `k`'s fault
   * and launched exactly the schemas up to `k`: nothing after a failure is compiled.
   */
  lemma {:induction false} RunStopsAtFirstFault(base: seq<string>, schemas: seq<string>, dir: FilePath, io: StdIo, run: Runner, k: int)
    requires 0 <= k < |schemas|
    requires AllSucceed(base, schemas, dir, io, run, k)
    requires run(Launch(base, schemas[k], dir, io)) != Exited(0)
    ensures RunSchemas(base, schemas, dir, io, run) ==
      Run(FaultOf(schemas[k], run(Launch(base, schemas[k], dir, io))), Launches(base, schemas[..k + 1], dir, io))
    decreases k
  {
    var inv := Launch(base, schemas[0], dir, io);
    if k > 0 {
      var tail := schemas[1..];
      assert run(inv) == Exited(0);
      assert forall j :: 0 <= j < k - 1 ==> tail[j] == schemas[j + 1];
      assert AllSucceed(base, tail, dir, io, run, k - 1);
      RunStopsAtFirstFault(base, tail, dir, io, run, k - 1);
      assert Launches(base, schemas[..k + 1], dir, io) == [inv] + Launches(base, tail[..k], dir, io);
    } else {
      assert Launches(base, schemas[..1], dir, io) == [inv];
    }
  }
}
