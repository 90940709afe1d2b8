/** Small value wrappers shared by the components: an optional value (JavaScript's
    `null`/`undefined` versus a present value) and the outcome of one network call. */
module Wrappers {

  datatype Option<+T> = None | Some(value: T)

  /** What a REST call returns to the component: the decoded response body, or a failure
      (a thrown error, a non-2xx status, a body that could not be decoded), optionally
      carrying the server's `message` field. */
  datatype Reply<+T> = Success(data: T) | Failure(serverMessage: Option<string>)
}
