/**
 * `main` and `try_main`: acquiring the terminal backend before the session
 * starts, and turning a startup failure into an error line and exit status 2.
 */
module Startup {
  import opened Options

  /** The terminal backend the session is started with. */
  datatype Backend = RawBackend | TermionBackend

  const StdoutHint: string :=
    "Failed to get stdout: if you are trying to pipe 'bandwhich' you should use the --raw flag"

  /**
   * Choosing the backend. `inputError` is the failure of gathering the OS
   * inputs, if any; `rawFlag` is `--raw`; `stdoutRaw` says whether standard
   * output could be put into raw mode.
   */
  function TryMain(inputError: Option<string>, rawFlag: bool, stdoutRaw: bool): (r: Result<Backend>)
    ensures r.Err? <==> inputError.Some? || (!rawFlag && !stdoutRaw)
    ensures inputError.Some? ==> r == Err(inputError.value)
    ensures inputError.None? && !rawFlag && !stdoutRaw ==> r == Err(StdoutHint)
    // raw mode never needs the terminal
    ensures r.Ok? ==> (r.value == RawBackend <==> rawFlag)
  {
    if inputError.Some? then Err(inputError.value)
    else if rawFlag then Ok(RawBackend)
    else if stdoutRaw then Ok(TermionBackend)
    else Err(StdoutHint)
  }

  /** What the process reports once `try_main` returns: an exit status and the error stream. */
  datatype Exit = Exit(status: int, stderr: seq<string>)

  function ExitWith(r: Result<Backend>): (e: Exit)
    ensures e.status == 0 || e.status == 2
    ensures e.status == 0 <==> r.Ok?
    ensures r.Ok? ==> e.stderr == []
    ensures r.Err? ==> e.stderr == ["Error: " + r.message]
  {
    match r
    case Ok(_) => Exit(0, [])
    case Err(m) => Exit(2, ["Error: " + m])
  }

  /** Startup fails with status 2 exactly when the inputs fail or a terminal is needed and missing. */
  lemma StartupFailure(inputError: Option<string>, rawFlag: bool, stdoutRaw: bool)
    ensures var e := ExitWith(TryMain(inputError, rawFlag, stdoutRaw));
      e.status == 2 <==> inputError.Some? || (!rawFlag && !stdoutRaw)
    ensures inputError.None? && !rawFlag && !stdoutRaw ==>
      ExitWith(TryMain(inputError, rawFlag, stdoutRaw)).stderr == ["Error: " + StdoutHint]
  {
  }
}
