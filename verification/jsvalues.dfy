/** The two JavaScript outcomes the model needs: a global that may still be
    `undefined`, and an operation that may throw a TypeError by reading a
    property of `undefined`. */
module JsValues {

  datatype Option<T> = Undefined | Defined(value: T)

  datatype Result<T> = Ok(value: T) | TypeError
}
