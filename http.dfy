/** What a `fetch` call can come back with, as seen by the adapters. */
module Http {

  /** Either the request failed before a response arrived (`fetch` rejected),
      or a response with a status code and a body text arrived. */
  datatype Outcome = NetworkError | Response(status: int, body: string) {
    /** `response.ok`: a status in the range 200-299. */
    predicate Ok() {
      Response? && 200 <= status <= 299
    }
  }
}
