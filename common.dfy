/** Shared vocabulary of the backend model: optional values, results,
    strings, instants and the HTTP responses that the handlers produce. */
module Common {

  datatype Option<+T> = None | Some(value: T)

  datatype Result<+T, +E> = Ok(value: T) | Err(error: E)

  /** Go strings are modelled as sequences of characters. */
  type String = seq<char>

  /** An uninterpreted digest: MD5 or SHA-256 followed by lower-case hex encoding. */
  type Digest = String -> String

  /** Instants and durations count nanoseconds, as Go's time package does. */
  type Time = int
  type Duration = int

  const Second: Duration := 1_000_000_000
  const Hour: Duration := 3600 * Second

  const StatusOK := 200
  const StatusCreated := 201
  const StatusAccepted := 202
  const StatusBadRequest := 400
  const StatusUnauthorized := 401
  const StatusNotAcceptable := 406
  const StatusConflict := 409
  const StatusFailedDependency := 424
  const StatusUpgradeRequired := 426
  const StatusInternalServerError := 500
  const StatusServiceUnavailable := 503

  /** The bodies the modelled handlers write. */
  datatype Body =
    | NoContent
    | ErrorMessage(message: String)     // the handlers' own error record
    | HTTPErrorMessage(message: String) // the framework's HTTP error, a differently shaped record
    | PlainText(text: String)
    | PlaceOrderBody(orderID: String, qrContent: String, expiresIn: nat)
    | ServerStatusBody(operating: bool, latency: int)

  datatype Response = Response(status: int, body: Body)

  /** The shared 400 answer of the handlers for unbindable or invalid input. */
  const DefaultBadRequestResponse := Response(StatusBadRequest, ErrorMessage("bad request"))
}
