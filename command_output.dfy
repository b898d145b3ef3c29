/**
 * The record the front end gets back from every `container` invocation, and
 * `validateCommandOutput`, which turns a finished child process into it.
 */
module CommandOutput {
  import opened Wrappers

  /** A finished child process: exit code (absent when killed by a signal), signal, captured output. */
  datatype ChildProcess = ChildProcess(code: Option<int>, signal: Option<int>, stdout: string, stderr: string)

  /** The `Output` record handed to the UI; `message` is absent on native-command errors. */
  datatype Output = Output(error: bool, message: Option<string>, stderr: string, stdout: string)

  const SignalMessage: string := "Process was terminated by a signal on Unix"
  const StdoutMessage: string := "Error processing stdout"
  const SuccessMessage: string := "Command executed successfully"

  /**
   * `validateCommandOutput`: a missing exit code is an error whatever was
   * printed; otherwise empty stdout is an error; otherwise success, even for
   * a non-zero exit code or a non-empty stderr.
   */
  function ValidateCommandOutput(p: ChildProcess): (r: Output)
    ensures r.stdout == p.stdout && r.stderr == p.stderr
    ensures r.error <==> p.code.None? || p.stdout == ""
    ensures p.code.None? ==> r.message == Some(SignalMessage)
    ensures p.code.Some? && p.stdout == "" ==> r.message == Some(StdoutMessage)
    ensures !r.error ==> r.message == Some(SuccessMessage)
  {
    if p.code.None? then Output(true, Some(SignalMessage), p.stderr, p.stdout)
    else if p.stdout == "" then Output(true, Some(StdoutMessage), p.stderr, p.stdout)
    else Output(false, Some(SuccessMessage), p.stderr, p.stdout)
  }

  /** The record returned when the native command itself fails (`output.status === 'error'`). */
  function NativeError(e: string): (r: Output)
    ensures r.error && r.message.None? && r.stderr == e && r.stdout == ""
  {
    Output(true, None, e, "")
  }

  /** The signal check comes first: when the code is missing, stdout does not matter. */
  lemma {:induction false} SignalCheckFirst(p: ChildProcess, out: string)
    requires p.code.None?
    ensures ValidateCommandOutput(p.(stdout := out)).message == ValidateCommandOutput(p).message
    ensures ValidateCommandOutput(p.(stdout := out)).error
  {
  }

  /** The exit status and stderr are never consulted beyond "is there a code". */
  lemma {:induction false} OnlyPresenceOfCodeMatters(p: ChildProcess, c: int, err: string, sig: Option<int>)
    requires p.code.Some?
    ensures ValidateCommandOutput(p.(code := Some(c), stderr := err, signal := sig)).error
         == ValidateCommandOutput(p).error
  {
  }

  /** Success and the native-error record are never confused: only validated output has a message. */
  lemma {:induction false} NativeErrorIsNotValidated(e: string, p: ChildProcess)
    ensures NativeError(e) != ValidateCommandOutput(p)
  {
  }
}
