/** The present/absent result used wherever the renderer's code reports
    failure by an empty value instead of an exception. */
module Wrappers {

  datatype Option<+T> = None | Some(value: T)

}
