/**
 * The parts of an HTTP exchange the client looks at: a response's status
 * code and its body text. Sending requests is not modelled.
 */
module Http {

  /** A status code as the HTTP library holds it: three digits. */
  type StatusCode = n: int | 100 <= n < 1000 witness 200

  /** `StatusCode::is_success`: the 2xx range. */
  predicate IsSuccess(status: StatusCode)
  {
    200 <= status < 300
  }

  /** A completed response. */
  datatype HttpResponse = HttpResponse(status: StatusCode, body: string)
}
