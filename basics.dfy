/** Outcome types shared by the pipeline stages. */
module Basics {

  datatype Option<T> = None | Some(value: T)

  /** The exceptions the pipeline raises once the directory walk and the argument check are
      out of the picture. */
  datatype Error =
    | EmptyTrack      // min()/max() over the pitches of a track without notes (ValueError)
    | EmptyKeyCount   // [0] on the sorted items of an empty key count (IndexError)
    | EmptyMean       // int() of the NaN mean of an empty pitch list (ValueError)
    | NothingToStack  // numpy.hstack of an empty list of piano rolls (ValueError)

  datatype Result<T> = Ok(value: T) | Err(error: Error)
}
