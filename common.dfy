/** Small value types shared by every part of the webhook model. */
module Common {

  /** A value that may be absent (Python's None, or a missing key). */
  datatype Option<+T> = None | Some(value: T)

  /** The three kinds of exception the handler tells apart: botocore's ClientError,
      botocore's WaiterError, and any other exception (IndexError, KeyError, ...). */
  datatype ErrorKind = ClientErr | WaiterErr | OtherErr

  /** A raised exception: its kind and its `str(e)`. */
  datatype Error = Error(kind: ErrorKind, message: string)

  /** The outcome of a step that may raise. */
  datatype Result<+T> = Ok(value: T) | Err(error: Error)
}
