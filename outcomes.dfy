/** Small failure-carrying datatypes shared by the listing, multipart and controller modules. */
module Outcomes {

  /** A value that may be absent; `None` stands for a Java `null` argument. */
  datatype Option<+T> = None | Some(value: T)

  /** The result of a call into the file store, which may throw an I/O exception. */
  datatype Io<+T> = Done(value: T) | IoFailure

  /** A Java string argument that may be null, read the way the controller reads it: null as "". */
  function OrEmpty(s: Option<string>): string {
    match s
    case None => []
    case Some(v) => v
  }
}
