/** What the generated scripts hand to the operating system: exit statuses and
    the external programs they start. */
module Processes {
  import opened Wrappers
  import opened Paths

  /** A process exit status as the shell reports it in `$?`. */
  type ExitStatus = x: int | 0 <= x < 256

  /** An external program started by a script: the directory it starts in
      (`None` when it inherits the caller's), the program, and its argument
      vector after the program name. What the program does is opaque; only
      its exit status comes back. */
  datatype Process = Process(dir: Option<Path>, program: string, args: seq<string>)
}
