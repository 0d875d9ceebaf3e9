/**
 * What running `scdl` as a child process can come back with, and the error
 * text both the downloader and the playlist synchroniser derive from a
 * failed run. The process itself is not modelled: its outcome is an input.
 */
module Process {
  import opened Wrappers

  /** The outcome of `subprocess.run(cmd, capture_output=True, text=True, timeout=3600)`. */
  datatype RunOutcome =
    | Exited(code: int, stdout: string, stderr: string)
    | TimedOut                  // subprocess.TimeoutExpired
    | ExecutableMissing         // FileNotFoundError: no `scdl` on the search path
    | Crashed(message: string)  // any other exception, by its `str(e)`

  const UnknownError := "Unknown error"
  const ScdlNotFound := "scdl not found. Please install scdl first."

  /** `result.stderr or result.stdout or "Unknown error"`: the first non-empty stream, else a fixed text. */
  function ErrorDetail(stdout: string, stderr: string): (r: string)
    ensures r != ""
    ensures stderr != "" ==> r == stderr
    ensures stderr == "" && stdout != "" ==> r == stdout
    ensures stderr == "" && stdout == "" ==> r == UnknownError
  {
    if stderr != "" then stderr
    else if stdout != "" then stdout
    else UnknownError
  }

  /** An argument that reads as an option. */
  predicate IsFlag(s: string) {
    |s| >= 2 && s[..2] == "--"
  }

  /** The `--client-id` pair both command builders add when there is a non-empty client id. */
  function ClientIdArgs(clientId: Option<string>): seq<string> {
    if clientId.Some? && clientId.value != "" then ["--client-id", clientId.value] else []
  }
}
