/** The error kinds the labelling engine reports, and the result wrappers that
    carry them. */
module Errors {
  import opened Vectors

  datatype Error =
    | UnknownLabelFamily(family: string)
    | InvalidOrientation(name: string)
    | DuplicateTagLocation(location: Vec)
    | InvalidTagGeometry(location: Vec)

  datatype Option<+T> = None | Some(value: T)

  datatype Result<+T> = Ok(value: T) | Err(error: Error)
}
