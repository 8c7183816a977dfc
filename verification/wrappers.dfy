/** The optional-value datatype the rest of the model uses for "no schedule
    registered" and "the process has not exited". */
module Wrappers {

  datatype Option<+T> = None | Some(value: T)
}
