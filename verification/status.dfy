/** The `status` / `health` subcommand: two reachability probes reported as
    one line each. The probes themselves (`curl` against the two local
    ports) are inputs. */
module HealthProbe {
  import opened Wrappers
  import opened Processes
  import opened Output

  /** Standard output and exit status of a run of the subcommand. */
  datatype Report = Report(stdout: seq<Line>, exit: ExitStatus)

  /** The report for the given probe results: a heading, a blank line, then
      the backend line and the UI line, a ✅ line exactly for the probes that
      succeeded. The subcommand never fails. */
  function Probe(backendReachable: bool, uiReachable: bool): (r: Report)
    ensures r.exit == 0
    ensures |r.stdout| == 4 && r.stdout[0] == CheckingStatus && r.stdout[1] == Blank
    ensures r.stdout[2] == BackendRunning || r.stdout[2] == BackendNotRunning
    ensures r.stdout[3] == UiRunning || r.stdout[3] == UiNotRunning
    ensures BackendRunning in r.stdout <==> backendReachable
    ensures BackendNotRunning in r.stdout <==> !backendReachable
    ensures UiRunning in r.stdout <==> uiReachable
    ensures UiNotRunning in r.stdout <==> !uiReachable
  {
    Report([CheckingStatus, Blank,
            if backendReachable then BackendRunning else BackendNotRunning,
            if uiReachable then UiRunning else UiNotRunning],
           0)
  }

  /** Reads probe results back from a report's lines: what an operator
      learns from the output. */
  function ReadProbes(lines: seq<Line>): Option<(bool, bool)>
  {
    if |lines| == 4 && lines[0] == CheckingStatus && lines[1] == Blank
       && (lines[2] == BackendRunning || lines[2] == BackendNotRunning)
       && (lines[3] == UiRunning || lines[3] == UiNotRunning)
    then Some((lines[2] == BackendRunning, lines[3] == UiRunning))
    else None
  }

  /** The report is faithful: for all four combinations of probe results the
      output tells exactly which services answered, and nothing else. */
  lemma ProbeReadsBack(backendReachable: bool, uiReachable: bool)
    ensures ReadProbes(Probe(backendReachable, uiReachable).stdout)
            == Some((backendReachable, uiReachable))
  {
  }
}
