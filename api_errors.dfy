/** The service's own error type, `APIError`, and the human-readable
    description it supplies to the UI (`errorDescription`). */
module ApiErrors {
  import opened Wrappers
  import opened Decimal

  datatype APIError =
    | InvalidUrl
    | InvalidResponse
    | ServerError(code: int)
    | DecodingError
    | NetworkError(message: string)

  const InvalidUrlText := "The server URL is invalid."
  const InvalidResponseText := "The server returned an invalid or unexpected response."
  const ServerErrorPrefix := "The server returned an error with status code: "
  const DecodingErrorText := "Failed to decode the server's response." + " The data format may be incorrect."
  const NetworkErrorPrefix := "A network error occurred: "

  /** `errorDescription`: one message per case; the server error message
      carries the status code and the network error its message. Swift's
      optional result is never nil, so the model returns a plain string. */
  function ErrorDescription(e: APIError): string {
    match e
    case InvalidUrl => InvalidUrlText
    case InvalidResponse => InvalidResponseText
    case ServerError(code) => ServerErrorPrefix + IntToString(code) + "."
    case DecodingError => DecodingErrorText
    case NetworkError(message) => NetworkErrorPrefix + message
  }

  /** Reads the status code back out of a description, the way a caller
      showing the message would see it. */
  function StatusCodeIn(text: string): Option<int> {
    var n := |ServerErrorPrefix|;
    if |text| > n && text[..n] == ServerErrorPrefix && text[|text| - 1] == '.' then
      ParseInt(text[n..|text| - 1])
    else
      None
  }

  /** The description of `serverError(code)` embeds `code`. */
  lemma ServerErrorDescriptionCarriesCode(code: int)
    ensures StatusCodeIn(ErrorDescription(ServerError(code))) == Some(code)
  {
    var text := ErrorDescription(ServerError(code));
    var n := |ServerErrorPrefix|;
    assert text[..n] == ServerErrorPrefix;
    assert text[n..|text| - 1] == IntToString(code);
    IntToStringRoundTrip(code);
  }

  /** Distinct status codes give distinct server error messages. */
  lemma ServerErrorDescriptionsDiffer(a: int, b: int)
    requires a != b
    ensures ErrorDescription(ServerError(a)) != ErrorDescription(ServerError(b))
  {
    ServerErrorDescriptionCarriesCode(a);
    ServerErrorDescriptionCarriesCode(b);
  }

  /** The description of `networkError(message)` ends with `message`. */
  lemma NetworkErrorDescriptionCarriesMessage(message: string)
    ensures var text := ErrorDescription(NetworkError(message));
      |text| >= |NetworkErrorPrefix| && text[|NetworkErrorPrefix|..] == message
  {
    var text := ErrorDescription(NetworkError(message));
    assert text == NetworkErrorPrefix + message;
  }

  /** What tells the descriptions apart: their lengths and the characters
      at positions 25 and 46. */
  lemma DescriptionMarks(e: APIError)
    ensures var text := ErrorDescription(e);
      match e
      case InvalidUrl => |text| == 26 && text[25] == '.'
      case InvalidResponse => |text| == 54 && text[25] == 'v' && text[46] == 'e'
      case ServerError(_) => |text| >= 49 && text[25] == 'r' && text[46] == ' '
      case DecodingError => |text| == 73 && text[25] == 'e' && text[46] == 't'
      case NetworkError(_) => |text| >= 26 && text[25] == ' '
  {
  }

  /** `errorDescription` never gives two different errors the same text. */
  lemma ErrorDescriptionInjective(a: APIError, b: APIError)
    requires ErrorDescription(a) == ErrorDescription(b)
    ensures a == b
  {
    DescriptionMarks(a);
    DescriptionMarks(b);
    if a.ServerError? && b.ServerError? {
      ServerErrorDescriptionCarriesCode(a.code);
      ServerErrorDescriptionCarriesCode(b.code);
    } else if a.NetworkError? && b.NetworkError? {
      NetworkErrorDescriptionCarriesMessage(a.message);
      NetworkErrorDescriptionCarriesMessage(b.message);
    }
  }
}
