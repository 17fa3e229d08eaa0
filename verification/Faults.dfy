/** How a call to a remote system can end. */
module Faults {
  /** It works, it fails with no effect, or it takes effect without the caller learning of it. */
  datatype Fault = Works | FailsBefore | CutAfter
}
