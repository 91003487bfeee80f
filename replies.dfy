/** The values that stand in for the network: an optional value, and the
    reply an HTTP call gives its caller. */
module Replies {

  datatype Option<T> = None | Some(value: T)

  /** A reply as an axios caller sees it: the response data, or an error.
      An error carries the HTTP status when the provider answered at all
      (`e.response.status`) and `None` when there was no response. */
  datatype Reply<T> = Ok(data: T) | Err(status: Option<int>) {

    /** An error response with status 429 (Too Many Requests). */
    predicate RateLimited() {
      Err? && status == Some(429)
    }
  }
}
