/** The parts of Foundation's URL loading system the client touches. */
module Http {
  import opened Wrappers
  import opened Utf8

  /** `URLQueryItem`. */
  datatype QueryItem = QueryItem(name: string, value: string)

  /**
   * A request URL: the base URL, the endpoint path appended to it, and the
   * query items (none for a URL built without URLComponents).
   */
  datatype Url = Url(base: string, path: string, queryItems: seq<QueryItem>)

  /** `URLRequest`, a value type the client mutates field by field. */
  datatype URLRequest = URLRequest(
    url: Url,
    httpMethod: string,
    headers: map<string, string>,
    httpBody: Option<seq<byte>>)

  /** `URLRequest(url:)`: a GET with no headers and no body. */
  function NewRequest(url: Url): URLRequest
  {
    URLRequest(url, "GET", map[], None)
  }

  /** A `URLResponse`; only an HTTPURLResponse carries a status code. */
  datatype URLResponse = HTTPURLResponse(statusCode: int) | OtherResponse

  /** The transport's own failure (Swift's `Error` from a data task). */
  datatype TransportError = TransportError(description: string)

  /** The three values a data task hands its completion handler. */
  datatype TransportOutcome = TransportOutcome(
    data: Option<seq<byte>>,
    response: Option<URLResponse>,
    error: Option<TransportError>)
  {
    /** No transport error, and the response is an HTTP one. */
    predicate IsHttp()
    {
      error.None? && response.Some? && response.value.HTTPURLResponse?
    }

    /** The status code of an HTTP response. */
    function Status(): int
      requires IsHttp()
    {
      response.value.statusCode
    }
  }
}
