/** What this program sees of an HTTP exchange. The transfer itself is done
    by a library and is an input here: either the call raised, or a response
    arrived with a status and a body that did or did not parse as JSON. */
module Http {
  import opened Encoding
  import opened Json

  datatype Transport =
    | Raised
    | Response(status: int, payload: Option<JVal>)

  /** A GET request as the program composes it: the URL, the header map and
      the query-parameter map handed to the library. */
  datatype Request = Request(url: string, headers: map<string, string>, params: map<string, JVal>)

  /** `response.raise_for_status()` raises for client and server errors,
      the statuses from 400 to 599. */
  predicate RaisesForStatus(status: int) {
    400 <= status < 600
  }

  /** The request completed and `raise_for_status()` did not raise. */
  predicate Completed(t: Transport) {
    t.Response? && !RaisesForStatus(t.status)
  }
}
