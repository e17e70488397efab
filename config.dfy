/** The configuration record shared by the front ends and the container entry point, and the exit codes. */
module Config {
  import opened Wrappers

  const EXIT_SUCCESS: int := 0
  const EXIT_FAILURE: int := 1

  /** What a process can hand to exit(): the low byte that a parent reads back. */
  type ExitCode = c: int | 0 <= c < 256

  /**
   * The ContainerArgs struct. `command` is the NULL-terminated argv of the
   * command to run; None stands for a NULL pointer.
   */
  datatype ContainerArgs = ContainerArgs(
    hostname: string,
    rootfs: string,
    command: Option<seq<string>>,
    maxCpus: int,
    maxMemory: int)
}
