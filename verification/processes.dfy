/**
 * The external `capnp` process as an oracle. `ProcessBuilder.start()` followed by `waitFor()` either
 * yields an exit value or throws; which one depends on the argument vector, the working directory and
 * whether the standard streams are inherited, and on nothing else the plugin controls.
 */
module Processes {
  import opened Files

  /** Whether the child process inherits the plugin's standard streams (`inheritIO`) or gets pipes. */
  datatype StdIo = Inherit | Pipe

  /** One process launch: argument vector, working directory, stream mode. */
  datatype Invocation = Invocation(argv: seq<string>, directory: FilePath, io: StdIo)

  /** What launching and waiting produced. */
  datatype Outcome =
    | Exited(code: int)              // `waitFor()` returned this exit value
    | StartFailed(message: string)   // `start()` threw an `IOException`
    | Interrupted                    // `waitFor()` threw an `InterruptedException`

  /** The compiler process, as a total function of the invocation. */
  type Runner = Invocation -> Outcome
}
