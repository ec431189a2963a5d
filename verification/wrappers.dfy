/** Option and Result, the failure-carrying values used throughout the model. */
module Wrappers {

  datatype Option<+T> = None | Some(value: T)

  /** The error kinds the inventory engines raise. */
  datatype Error =
    | MissingArgument     // a required argument was null ("... is required")
    | NotFound            // "Dataset not found"
    | InvalidDateStart    // start date does not parse
    | InvalidDateEnd      // end date does not parse
    | InvalidRange        // "dateEnd must be >= dateStart"
    | DivisionByZero      // integer division by zero inside the generator
    | UnknownTour         // an availability whose tour belongs to no variant
    | DateOverflow        // a date computation left the supported calendar range
    | ParseFailure        // strptime rejected a date or time string (ValueError)

  datatype Result<+T> = Ok(value: T) | Err(error: Error)
}
