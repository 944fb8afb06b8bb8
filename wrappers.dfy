/** Optional values, results and the error kinds the client layer surfaces. */
module Wrappers {

  /** A Go value that may be nil (a nil `url.Values`, a nil slice). */
  datatype Option<+T> = None | Some(value: T)

  /** The errors the request layer and the message helpers can return.
      The oracles (transport, body read, decoders) choose the error they
      report; the layer only passes it on. */
  datatype Error =
    | RequestConstructionError(uri: string)   // http.NewRequest rejected the URI
    | TransportError(cause: string)           // c.Do failed (including the header timeout)
    | BodyReadError(cause: string)            // ioutil.ReadAll failed
    | DecodeError(cause: string)              // json.Unmarshal failed
    | UrlParseError(uri: string)              // url.Parse of a next-page URI failed
    | RemoteServiceError(status: string, statusCode: int)  // non-2xx status on create

  /** A Go `(value, error)` pair in which exactly one side is meaningful. */
  datatype Result<+T> = Ok(value: T) | Err(error: Error)
}
