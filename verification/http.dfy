/** The parts of an HTTP exchange the handlers and gates look at. */
module Http {
  import opened Wrappers

  /** One octet of a header value. */
  type Byte = b: int | 0 <= b < 256

  /** A response: its status code and a body of the handler's own shape. */
  datatype Response<B> = Response(status: nat, body: B)

  const OK: nat := 200
  const CREATED: nat := 201
  const FOUND: nat := 302
  const BAD_REQUEST: nat := 400
  const UNAUTHORIZED: nat := 401
  const NOT_FOUND: nat := 404
  const INTERNAL_SERVER_ERROR: nat := 500
  const NOT_IMPLEMENTED: nat := 501

  /**
   * An inbound request: its path, the raw bytes of its `Authorization` header,
   * and the one slot of the request's extension map that this server uses
   * (the value stored under type `X`), which a gate may fill in place.
   */
  class Request<X> {
    const path: string
    const authorization: Option<seq<Byte>>
    var extension: Option<X>

    constructor (path: string, authorization: Option<seq<Byte>>)
      ensures this.path == path && this.authorization == authorization
      ensures extension == None
    {
      this.path := path;
      this.authorization := authorization;
      extension := None;
    }
  }

  /** The error an extractor raises: actix's `ErrorUnauthorized(message)`, answered with 401. */
  datatype Unauthorized = Unauthorized(message: string)
}
