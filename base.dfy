/** Shared value types: optional values, results of handlers, error kinds and
    the outcome of request validation. */
module Base {

  /** Python's `Optional[...]`: `None` or a value. */
  datatype Option<+T> = None | Some(value: T)

  /** The errors a handler can end with. */
  datatype Error =
    | ValueError(message: string)            // a Python ValueError, raised to the caller
    | HttpError(status: nat, detail: string)  // an HTTPException with its status code and detail
    | InvalidId                               // bson's InvalidId from ObjectId(s) on a malformed s: a 500
    | KeyError(key: string)                   // a dictionary lookup of a missing key: a 500

  /** What a handler returns: a payload or an error. */
  datatype Result<+T> = Ok(value: T) | Err(error: Error)

  /** Python truthiness of an optional string: `None` and `""` are false. */
  predicate Truthy(o: Option<string>)
  {
    o.Some? && o.value != ""
  }

  /** A field of an incoming request body: the key is missing, or it was given
      (for an `Optional[...]` field, the value given may be `None`). */
  datatype Field<+T> = Missing | Given(value: T)

  /** One validation error of a request body, naming the offending field. */
  datatype FieldError =
    | Required(field: string)               // a required field is missing
    | NotGreaterThan(field: string, bound: int)  // `Field(gt=bound)` failed
    | TooShort(field: string, minLength: nat)    // `Field(min_length=...)` failed

  /** The outcome of validating a request body: the model, or every error found
      (in the order the fields are declared). */
  datatype Validated<+T> = Valid(value: T) | Invalid(errors: seq<FieldError>)
}
