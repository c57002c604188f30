/**
 * `SendmailMailer`: its constructor and its `send`, which pipes the
 * serialized message into a local sendmail-compatible program.
 *
 * The child process is not run; how it behaves is a parameter (`Child`).
 * What `send` does is recorded as the invocation it makes and the log
 * entries it writes. A nonzero exit status is logged and `send` returns
 * normally; only an exception from starting the process reaches the caller.
 */
module Sendmail {
  import opened Wrappers
  import opened Messages

  /** The child: `Popen` raises (no such program, say), or the program runs and exits. */
  datatype Child = SpawnFails | Exits(returncode: int, stderr: string)

  /** The command `Popen` is given, and what `communicate` writes to the child's standard input. */
  datatype Invocation = Invocation(argv: seq<string>, stdinData: Option<string>)

  /**
   * The error logged for a failed run: the (stdout, stderr) pair that
   * `communicate` returned. Only standard error is piped, so stdout is None.
   */
  datatype LogEntry = SendmailFailed(stdout: Option<string>, stderr: string)

  /** Whether `send` returned, or the exception `Popen` raised propagated. */
  datatype Outcome = Returned | Raised

  class SendmailMailer {
    const sendmailPath: string

    /** `SendmailMailer.__init__`. */
    constructor (sendmailPath: string)
      ensures this.sendmailPath == sendmailPath
    {
      this.sendmailPath := sendmailPath;
    }

    /**
     * `SendmailMailer.send`: runs `sendmailPath -t -oi` (recipients from the
     * headers, a lone dot is not the end of input) and writes `asString(msg)`
     * to it. The exit status decides only whether an error is logged.
     */
    method Send(msg: Message, asString: Message -> string, child: Child)
      returns (invocation: Invocation, outcome: Outcome, log: seq<LogEntry>)
      ensures invocation.argv == [sendmailPath, "-t", "-oi"]
      ensures invocation.stdinData == if child.Exits? then Some(asString(msg)) else None
      ensures outcome == Returned <==> child.Exits?
      ensures child.Exits? ==> (log == [] <==> child.returncode == 0)
      ensures child.Exits? && child.returncode != 0 ==> log == [SendmailFailed(None, child.stderr)]
      ensures child.SpawnFails? ==> log == []
    {
      var argv := [sendmailPath, "-t", "-oi"];
      log := [];
      if child.SpawnFails? {
        return Invocation(argv, None), Raised, log;
      }
      var data := asString(msg);
      invocation := Invocation(argv, Some(data));
      if child.returncode != 0 {
        log := log + [SendmailFailed(None, child.stderr)];
      }
      outcome := Returned;
    }
  }
}
