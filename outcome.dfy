/** Outcomes of the authentication code: values, HTTP errors raised on
    purpose, and Python exceptions the code lets escape. */
module Outcome {

  datatype Option<+T> = None | Some(value: T)

  /** The kind of a Python exception that no `try` in the core catches. */
  datatype Raised =
    | KeyError(key: string)    // `d["name"]` on a dict without that member
    | TypeError                // subscripting, iterating or hashing the wrong kind of value
    | AttributeError           // `.get` on something that is not a dict
    | IndexError               // `[1]` on a one-element list
    | JwtError                 // `jwt.get_unverified_header` on a malformed token
    | UnicodeEncodeError       // a header name outside Latin-1

  /** A failure: an `HTTPException(status, detail, headers)` or an escaping exception. */
  datatype Error =
    | HttpError(status: int, detail: string, headers: map<string, string>)
    | Uncaught(raised: Raised)

  datatype Result<+T> = Ok(value: T) | Err(error: Error)
}
