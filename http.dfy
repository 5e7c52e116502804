/**
 * The HTTP surface the route handlers see: JavaScript values for request and
 * response bodies, and the response object whose cookie jar `cookies.set`
 * mutates (Next.js `NextResponse`).
 */
module Http {

  /** A JavaScript value as it appears in a parsed request body or a response body. */
  datatype Value =
    | VNull
    | VBool(b: bool)
    | VNumber(n: int)
    | VString(s: string)
    | VDate(ms: int)
    | VArray(items: seq<Value>)
    | VObject(fields: map<string, Value>)

  /** `{ error: message }`, the body of every error response of the two handlers. */
  function ErrorBody(message: string): (v: Value)
    ensures v.VObject? && v.fields.Keys == {"error"} && v.fields["error"] == VString(message)
  {
    VObject(map["error" := VString(message)])
  }

  /**
   * JavaScript truthiness: `null`, `false`, `0` and the empty string are
   * falsy; every date, array and object is truthy.
   */
  predicate Truthy(v: Value)
  {
    match v
    case VNull => false
    case VBool(b) => b
    case VNumber(n) => n != 0
    case VString(s) => s != ""
    case _ => true
  }

  /** The `SameSite` cookie attribute. */
  datatype SameSite = Strict | Lax | NoRestriction

  /**
   * The options object given to `response.cookies.set`; it becomes the
   * `Max-Age`, `Path`, `Secure` and `HttpOnly` attributes (sections 5.2.2
   * and 5.2.4 to 5.2.6 of RFC 6265) and the `SameSite` attribute.
   */
  datatype CookieOptions = CookieOptions(
    httpOnly: bool,
    secure: bool,
    sameSite: SameSite,
    maxAge: int,  // seconds
    path: string)

  datatype Cookie = Cookie(value: string, options: CookieOptions)

  /** A response: a status and a body fixed at creation, and a mutable cookie jar. */
  class Response {
    const status: int
    const body: Value
    var cookies: map<string, Cookie>

    /** `NextResponse.json(body, { status })`: a response with an empty cookie jar. */
    constructor Json(body: Value, status: int)
      ensures this.body == body && this.status == status && cookies == map[]
    {
      this.body := body;
      this.status := status;
      cookies := map[];
    }

    /** `response.cookies.set(name, value, options)`: replaces any cookie of that name. */
    method SetCookie(name: string, value: string, options: CookieOptions)
      modifies this
      ensures cookies == old(cookies)[name := Cookie(value, options)]
    {
      cookies := cookies[name := Cookie(value, options)];
    }
  }

  /** An error response: the status, `{ error: message }` as the body, and no cookie. */
  predicate IsError(response: Response, status: int, message: string)
    reads response
  {
    response.status == status && response.body == ErrorBody(message) && response.cookies == map[]
  }
}
