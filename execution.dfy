/**
 * `execute_command`: run an external command and either hand back its output
 * or end the whole process.  The child process is an oracle.
 */
module Execution {

  /**
   * What happens when a command is started: the child exits with a return
   * code after printing `output`, or it cannot be started at all.
   */
  datatype ChildProcess = Exited(returncode: int, output: string) | SpawnError

  /**
   * How the process ends: `exit(code)`, or an uncaught exception raised
   * inside the error handlers of `execute_command`.
   */
  datatype Termination = Exit(code: int) | Abnormal

  /** Either the command's output comes back to the caller, or the process ends. */
  datatype CommandOutcome = Returned(output: string) | Halted(termination: Termination)

  /**
   * `check_output` returns the output of a child that exits with 0 and raises
   * for any other return code, which the handler turns into `exit(returncode)`.
   * The handlers for a child that cannot be started raise in turn, so those
   * paths end abnormally with no defined exit code.
   */
  function ExecuteCommand(child: ChildProcess): (o: CommandOutcome)
    ensures o.Returned? <==> child.Exited? && child.returncode == 0
    ensures o.Returned? ==> o.output == child.output
    ensures o.Halted? && child.Exited? ==> o.termination == Exit(child.returncode)
    ensures child.SpawnError? ==> o == Halted(Abnormal)
    ensures o != Halted(Exit(0))
  {
    match child
    case Exited(code, output) => if code == 0 then Returned(output) else Halted(Exit(code))
    case SpawnError => Halted(Abnormal)
  }
}
