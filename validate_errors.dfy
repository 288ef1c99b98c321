/**
 * types.go: the validation error, the error collection a schema fills, and validators as values.
 * A Go `*Error` is modelled by the value it points to; a nil one by None.
 */
module ValidationErrors {
  import opened Wrappers

  /** One validation failure: the struct field it concerns, a machine-readable code and a message. */
  datatype Error = Error(field: string, code: string, message: string)

  /** Go's `Validator[T]`: the error a validator reports for a value, None when the value passes. */
  type Validator<!T> = T -> Option<Error>

  /** types.go Errors: the errors collected by one run of a schema, in the order they were added. */
  class Errors {
    var errors: seq<Error>

    /** `&Errors{}`: an empty collection. */
    constructor ()
      ensures errors == []
    {
      errors := [];
    }

    /** Appends one error at the end; the earlier ones are kept as they were. */
    method Add(err: Error)
      modifies this
      ensures errors == old(errors) + [err]
      ensures |errors| == |old(errors)| + 1 && errors[..|old(errors)|] == old(errors)
    {
      errors := errors + [err];
    }

    /** Whether any error was added. */
    function HasErrors(): (b: bool)
      reads this
      ensures b <==> errors != []
    {
      |errors| > 0
    }

    /** The errors, in the order they were added. */
    function Get(): (r: seq<Error>)
      reads this
      ensures |r| == |errors| && forall i :: 0 <= i < |r| ==> r[i] == errors[i]
    {
      errors
    }
  }
}
