/**
 * The error kinds of error.go, and the two wrappers the rest of the model
 * returns them in.
 */
module Errors {

  /** One constructor per error type declared in error.go. `DuplicatedTag` and
      `DuplicatedField` carry a name there that no code ever sets, so it is
      dropped. `NoValidMeasurement` and `NoValidField` are used by
      generate_influx_point.go although error.go does not declare them.
      `MarshalTextFailed` stands for whatever error a user's
      `MarshalText` method returns; getFieldAsString passes it on unchanged. */
  datatype Error =
    | UnSupportedType
    | DuplicatedMeasurement
    | DuplicatedTimestamp
    | DuplicatedTag
    | DuplicatedField
    | NoTagName
    | NoFieldName
    | DuplicatedKey
    | UnSupportedTag
    | NoValidMeasurement
    | NoValidField
    | MarshalTextFailed(message: string)

  datatype Option<+T> = None | Some(value: T)

  /** A Go `(T, error)` pair: exactly one of the two is meaningful. */
  datatype Result<+T> = Ok(value: T) | Err(error: Error) {
    predicate IsFailure() {
      Err?
    }

    function PropagateFailure<U>(): Result<U>
      requires Err?
    {
      Err(error)
    }

    function Extract(): T
      requires Ok?
    {
      value
    }
  }
}
