/** Failure values shared by the model: every exception the modelled Python
    code can raise becomes an `Err` carrying one of these reasons. */
module Results {

  datatype Error =
    | KeyMissing(key: string)        // KeyError on a dict subscript
    | AxisOutOfRange                 // np.split: axis does not exist
    | NonPositiveSections            // np.split: tp_size <= 0
    | UnequalDivision                // np.split: axis length not divisible
    | BlockIndexOutOfRange           // IndexError on np.split(...)[idx]
    | TooFewFields(key: string)      // IndexError on key.split(".")[2]
    | NotAnInteger(field: string)    // ValueError from int(...)
    | NotAString                     // AttributeError: .split on a non-str
    | NotAFloat                      // float(...) of a non-number
    | PadNeedsMatrix                 // np.pad with a 2-D pad spec on a 1-D array
    | NegativePad                    // np.pad with a negative width
    | EmptyBatch                     // ValueError: max() of an empty sequence

  datatype Result<T> = Ok(value: T) | Err(error: Error)

  datatype Option<T> = None | Some(value: T)
}
