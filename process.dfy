/** What a finished subprocess hands back, and the error chains built from
    it. Spawning, pipes and waiting are not modelled: the outcome of every
    subprocess is an input. */
module Process {
  import opened Wrappers

  /** An error chain as `anyhow` keeps it: the outermost context first,
      the root cause last. */
  type Error = seq<string>

  /** `std::process::Output`. `code` is `None` when a signal ended the process. */
  datatype Output = Output(code: Option<int>, stdout: string, stderr: string) {
    /** `ExitStatus::success`. */
    predicate Success() { code == Some(0) }
  }

  /** `Result::context(msg)`: a failure gains `msg` as its outermost message. */
  function Context<T>(r: Result<T, Error>, msg: string): Result<T, Error> {
    match r
    case Ok(v) => Ok(v)
    case Err(e) => Err([msg] + e)
  }
}
