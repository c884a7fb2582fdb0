/** Optional values, the errors a run can end with, and a failure-compatible result. */
module Errors {

  datatype Option<+T> = None | Some(value: T)

  /** Every way a run of the tool can fail before it writes its output. */
  datatype Error =
    | UnknownArch(arch: string)         // the container rejects the -arch value
    | OpenFailed(path: string)          // an input file cannot be opened
    | BadIconHeaders(path: string)      // the icon decoder rejects an icon file
    | BadVersionInfo(path: string)      // the version description cannot be read or parsed
    | MissingSysoSuffix(name: string)   // raw-data mode: output name lacks ".syso"
    | BadSymbolName(name: string)       // raw-data mode: stem is not [a-z0-9_]+

  datatype Result<+T> = Ok(value: T) | Err(error: Error) {

    predicate IsFailure() {
      Err?
    }

    function PropagateFailure<U>(): Result<U>
      requires Err?
    {
      Err(error)
    }

    function Extract(): T
      requires Ok?
    {
      value
    }
  }
}
