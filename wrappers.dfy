/** Optional values and fallible results shared by every module of the model. */
module Wrappers {

  datatype Option<+T> = None | Some(value: T)

  /** Everything that ends discovery early. In the program each of these terminates
      the process; here they are values the caller can inspect. */
  datatype Failure =
    | ProgramFilesUnavailable              // get_program_files_32_bit().value_or_exit
    | VsWhereFailed(output: string)        // vswhere.exe exited with a non-zero code
    | Unreachable                          // an isPrerelease flag outside {"0", "1"}
    | NoCompleteToolset(examined: seq<seq<string>>)  // nothing found; the paths that were probed

  datatype Result<+T> = Ok(value: T) | Err(error: Failure)
}
