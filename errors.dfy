/** The exceptions the connector lets escape, one constructor per kind. */
module Errors {

  datatype Error =
      /** `_get_env_var` found the variable unset. */
    | EnvironmentError(variable: string)
      /** A connector field (`session`, `security_context`, `SSL_VERIFY`) was read
          before `start_session` assigned it. */
    | AttributeError(attribute: string)
      /** `response.json()` on a body that is not JSON. */
    | JsonDecodeError
      /** Indexing a decoded payload failed at `key` (Python's KeyError, IndexError,
          TypeError or AttributeError on the wrong kind of value). */
    | PayloadError(key: string)
      /** `raise_for_status()` on a 4xx or 5xx response. */
    | HttpError(status: int)
      /** The HTTP library refused a header value that is not a string. */
    | InvalidHeader(header: string)
      /** `open(path, 'wb')` failed. */
    | IOError(path: string)
}
