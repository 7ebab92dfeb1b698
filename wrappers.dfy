/** Option and Result, for values that may be absent and for operations that may fail. */
module Wrappers {

  datatype Option<+T> = None | Some(value: T)

  datatype Result<+R, +E> = Ok(value: R) | Err(error: E)
}

/** The failures the program can run into: each one aborts the run with a Python exception. */
module Failures {

  datatype Error =
    /** `webcolors.name_to_rgb` does not know the colour name (ValueError). */
    | UnknownColour(name: string)
    /** an interesting list name is not among the user's lists (KeyError). */
    | MissingList(name: string)
    /** the lists response has no group at this index (IndexError). */
    | MissingGroup(index: nat)
}
