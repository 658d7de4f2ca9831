/** The HTTP values the client passes around: header maps and `Response`. */
module Http {
  import opened Format

  /** `http.Header`: each key maps to its list of values. */
  type Header = map<string, seq<string>>

  const ContentTypeKey := "Content-Type"
  const AcceptKey := "Accept"
  const JsonMediaType := "application/json"

  const MethodGet := "GET"
  const MethodPost := "POST"
  const MethodPut := "PUT"
  const MethodPatch := "PATCH"
  const MethodDelete := "DELETE"

  /** The outcome of a successful logical call, as the caller receives it. */
  datatype Response = Response(statusCode: int, headers: Header, body: seq<byte>) {

    /** True when the status is in the 2xx class. */
    function IsSuccess(): (ok: bool)
      ensures ok <==> statusCode / 100 == 2
    {
      statusCode >= 200 && statusCode < 300
    }
  }
}
