/** Values shared by the two services: an optional value and the result envelope
    `{status, message, data?}` that every service operation returns. */
module Envelopes {

  datatype Option<+T> = None | Some(value: T)

  /** The uniform service result: an HTTP status code, a human-readable message and
      an optional payload (absent when the source returns an object without `data`). */
  datatype Envelope<+D> = Envelope(status: int, message: string, data: Option<D>)
}
