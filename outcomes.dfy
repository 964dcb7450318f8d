/** Option and Result values for the downloaders, and the errors they raise. */
module Outcomes {

  datatype Option<+T> = None | Some(value: T)

  /** The exceptions a download can end with; none of them is caught inside the package. */
  datatype Error =
    | UnknownKey(key: string)                   // KeyError from an alias table (series name)
    | FetchFailed(url: string)                  // read_excel could not fetch or read the file
    | MissingColumn(column: string)             // a date-part column is absent from the sheet
    | UnparsableDate                            // to_datetime rejected a date text
    | UnknownAggregation(token: Option<string>) // KeyError from RESAMPLE_FREQ
    | AggregationFailed                         // resample(...).apply(...) raised
    | NothingToConcatenate                      // pd.concat was given an empty list

  /** A value or the error that aborted the call; usable with `:-`. */
  datatype Result<+T> = Ok(value: T) | Err(error: Error) {

    predicate IsFailure() {
      Err?
    }

    function PropagateFailure<U>(): Result<U>
      requires Err?
    {
      Err(error)
    }

    function Extract(): T
      requires Ok?
    {
      value
    }
  }
}
