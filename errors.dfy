/**
 * The crate's error type (src/error.rs:3-15). The two library errors are
 * opaque here: only which of them occurred is kept.
 */
module Errors {

  datatype Error =
    | Reqwest             // an error of the HTTP client: building it, reading or parsing a body
    | ReqwestMiddleware   // an error of the retrying middleware while sending
    | StatusNot200(body: string)   // a final status outside 2xx, with the response text
}
