/** Types shared by the serving path. */
module InferTypes {

  type Byte = b: int | 0 <= b < 256

  datatype InferError = RingFull | UnsupportedDataType | SessionRun(message: string)

  datatype Result<+T, +E> = Ok(value: T) | Err(error: E)

  datatype Option<+T> = None | Some(value: T)

  /** One batch row: for every model input, in model order, the bytes of that row. */
  type Row = seq<seq<Byte>>

  /** One element of an output tensor, as bytes. */
  type Element = seq<Byte>

  /** A session's answer for one batch: per output, one element for each batch slot. */
  type BatchResult = Result<seq<seq<Element>>, InferError>
}
